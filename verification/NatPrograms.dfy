/**
 Running an arithmetic expression: the program builds a net, and whatever the order of the tasks, that net ends
 up as the value of the expression and nothing else.
 */
module NatPrograms {
  import opened Links
  import opened Script
  import opened Machine
  import opened Execution
  import opened Compiler
  import opened Net
  import opened Confluence
  import opened Reading
  import opened NatRules
  import opened NatEffects
  import opened NatSystem
  import opened NatArith
  import opened NatMul
  import opened NatTrees

  function WordOf(ctor: Ctor): seq<Opcode> {
    [Literal(CtorValue(ctor)), Apply]
  }

  // `zero`, `.. add1`, `.. .. add`, `.. .. mul`
  function Postfix(e: Expr): seq<Opcode> {
    match e
    case Zero => WordOf(ZERO)
    case Add1(p) => Postfix(p) + WordOf(ADD1)
    case Add(l, r) => Postfix(l) + Postfix(r) + WordOf(ADD)
    case Mul(l, r) => Postfix(l) + Postfix(r) + WordOf(MUL)
  }

  lemma RunWord(ctor: Ctor, rest: seq<Opcode>, w: World, w': World)
    requires NewNode(w, ctor) == Some(w')
    ensures Result(Run(Program(), 0, WordOf(ctor) + rest, map[], w)) == Result(Run(Program(), 0, rest, map[], w'))
  {
    hide Program, NewNode;
    RunLiteralApply(Program(), 0, WordOf(ctor) + rest, map[], w);
    assert (WordOf(ctor) + rest)[2..] == rest;
  }

  // ----- Agents built from ends that may be principal -----

  // A principal end cannot go into a slot: a new wire does, connected to it.
  function Slotted(m: set<NodeId>, k: nat, e: End): End {
    if e.WireEnd? then e else WireEnd(Wire(m, k), false)
  }

  function Past(k: nat, e: End): nat {
    if e.WireEnd? then k else k + 1
  }

  function FillBlock(m: set<NodeId>, k: nat, n: NodeId, i: nat, e: End): seq<Action> {
    if e.WireEnd? then [Fill(n, i, e)]
    else [NewWire(Wire(m, k)), Fill(n, i, WireEnd(Wire(m, k), false)), Join(WireEnd(Wire(m, k), true), e)]
  }

  function FillLinks(L: Links, m: set<NodeId>, k: nat, e: End): Links {
    if e.WireEnd? then L else Link(L, WireEnd(Wire(m, k), true), e)
  }

  function WithFill(b: Build, n: NodeId, i: nat, e: End): Build
    requires n in b.nodes
  {
    b.(next := Past(b.next, e), free := b.free - {e},
       links := FillLinks(b.links, b.makers, b.next, e),
       wires := if e.WireEnd? then b.wires else b.wires + {Wire(b.makers, b.next)},
       nodes := b.nodes[n := b.nodes[n].(slots := b.nodes[n].slots[i := Slotted(b.makers, b.next, e)])])
  }

  lemma LeadsFill(b: Build, n: NodeId, i: nat, e: End)
    requires b.open == {n} && n in b.nodes && i < b.nodes[n].ctor.Arity() && i !in b.nodes[n].slots
    requires !b.nodes[n].ctor.IsPrincipal(i) && e in b.free
    requires forall s :: WireEnd(Wire(b.makers, b.next), s) !in b.free
    ensures Leads(b, FillBlock(b.makers, b.next, n, i, e), WithFill(b, n, i, e))
  {
    if e.WireEnd? {
      LeadsOne(b, Fill(n, i, e));
    } else {
      var x := Wire(b.makers, b.next);
      var s := [NewWire(x), Fill(n, i, WireEnd(x, false))];
      assert WireEnd(x, false) !in b.free && WireEnd(x, true) !in b.free;
      LeadsOutput(b, n, i);
      var b1 := b.(next := b.next + 1, free := b.free + {WireEnd(x, true)}, wires := b.wires + {x},
                   nodes := b.nodes[n := b.nodes[n].(slots := b.nodes[n].slots[i := WireEnd(x, false)])]);
      assert i in b1.nodes[n].slots && b1.nodes[n].slots[i] == WireEnd(x, true).Mate();
      LeadsOne(b1, Join(WireEnd(x, true), e));
      LeadsConcat(b, s, b1, [Join(WireEnd(x, true), e)], Perform(b1, Join(WireEnd(x, true), e)));
      assert Perform(b1, Join(WireEnd(x, true), e)).free == b.free - {e};
      assert s + [Join(WireEnd(x, true), e)] == FillBlock(b.makers, b.next, n, i, e);
    }
  }

  function SuccBlock(m: set<NodeId>, k: nat, e: End): seq<Action> {
    var n := NodeId(m, k);
    [Begin(n, ADD1)] + FillBlock(m, k + 1, n, 0, e) + [Fill(n, 1, Principal(n)), Finish(n)]
  }

  lemma NewSucc(w: World, base: seq<Machine.Value>, e: End)
    requires w.stack == base + [Ref(e)]
    ensures NewNode(w, ADD1)
         == Some(World(w.makers, Past(w.next + 1, e), base + [Ref(Principal(NodeId(w.makers, w.next)))],
                       w.script + SuccBlock(w.makers, w.next, e)))
  {
    var n := NodeId(w.makers, w.next);
    var w1 := w.(next := w.next + 1).Log(Begin(n, ADD1));
    PushPop(w1, base, Ref(e));
    var w2 := ReconnectInput(w1.Pop(), n, ADD1, 0, e);
    assert ReconnectInputs(w1, n, ADD1, 1) == ReconnectInputs(w2, n, ADD1, 0) == Some(w2);
    var w3 := ReconnectOutput(w2, n, ADD1, 1);
    assert ReconnectOutputs(w2, n, ADD1, 1) == ReconnectOutputs(w3, n, ADD1, 2) == w3;
    assert w3.script + [Finish(n)] == w.script + SuccBlock(w.makers, w.next, e);
  }

  function WithSucc(b: Build, e: End): Build {
    var n := NodeId(b.makers, b.next);
    var b1 := b.(next := b.next + 1, free := b.free + {Principal(n)}, nodes := b.nodes[n := Node(ADD1, map[])]);
    var b2 := WithFill(b1, n, 0, e);
    b2.(nodes := b.nodes[n := Add1Node(n, Slotted(b.makers, b.next + 1, e))])
  }

  lemma LeadsSucc(b: Build, e: End)
    requires NamesLeft(b) && e in b.free
    ensures Leads(b, SuccBlock(b.makers, b.next, e), WithSucc(b, e)) && NamesLeft(WithSucc(b, e))
  {
    hide Leads;
    var n := NodeId(b.makers, b.next);
    var a0, a1, a2 := Begin(n, ADD1), Fill(n, 1, Principal(n)), Finish(n);
    var b1 := Perform(b, a0);
    LeadsOne(b, a0);
    LeadsFill(b1, n, 0, e);
    var b2 := WithFill(b1, n, 0, e);
    var fill := FillBlock(b.makers, b.next + 1, n, 0, e);
    LeadsConcat(b, [a0], b1, fill, b2);
    LeadsOne(b2, a1);
    var b3 := Perform(b2, a1);
    LeadsConcat(b, [a0] + fill, b2, [a1], b3);
    LeadsOne(b3, a2);
    LeadsConcat(b, [a0] + fill + [a1], b3, [a2], Perform(b3, a2));
    assert [a0] + fill + [a1] + [a2] == SuccBlock(b.makers, b.next, e);
    assert b3.nodes == WithSucc(b, e).nodes;
    assert Perform(b3, a2) == WithSucc(b, e);
  }

  function OpBlock(ctor: Ctor, m: set<NodeId>, k: nat, target: End, other: End): seq<Action> {
    var n, z := NodeId(m, k), Wire(m, Past(k + 1, other));
    [Begin(n, ctor)] + FillBlock(m, k + 1, n, 1, other) + [Fill(n, 0, Principal(n)), Join(Principal(n), target)]
      + [NewWire(z), Fill(n, 2, WireEnd(z, false))] + [Finish(n)]
  }

  lemma NewOp(ctor: Ctor, w: World, base: seq<Machine.Value>, target: End, other: End)
    requires Binary(ctor) && w.stack == base + [Ref(target)] + [Ref(other)]
    ensures NewNode(w, ctor)
         == Some(World(w.makers, Past(w.next + 1, other) + 1,
                       base + [Ref(WireEnd(Wire(w.makers, Past(w.next + 1, other)), true))],
                       w.script + OpBlock(ctor, w.makers, w.next, target, other)))
  {
    var n := NodeId(w.makers, w.next);
    var w1 := w.(next := w.next + 1).Log(Begin(n, ctor));
    PushPop(w1, base + [Ref(target)], Ref(other));
    var w2 := ReconnectInput(w1.Pop(), n, ctor, 1, other);
    PushPop(w2, base, Ref(target));
    var w3 := ReconnectInput(w2.Pop(), n, ctor, 0, target);
    assert ReconnectInputs(w1, n, ctor, 2) == ReconnectInputs(w2, n, ctor, 1)
        == ReconnectInputs(w3, n, ctor, 0) == Some(w3);
    var w4 := ReconnectOutput(w3, n, ctor, 2);
    assert ReconnectOutputs(w3, n, ctor, 2) == ReconnectOutputs(w4, n, ctor, 3) == w4;
    assert w4.script + [Finish(n)] == w.script + OpBlock(ctor, w.makers, w.next, target, other);
  }

  function WithOp(b: Build, ctor: Ctor, target: End, other: End): Build {
    var n, k := NodeId(b.makers, b.next), Past(b.next + 1, other);
    var z := Wire(b.makers, k);
    b.(next := k + 1, free := b.free - {target, other} + {WireEnd(z, true)},
       links := Link(FillLinks(b.links, b.makers, b.next + 1, other), Principal(n), target),
       wires := (if other.WireEnd? then b.wires else b.wires + {Wire(b.makers, b.next + 1)}) + {z},
       nodes := b.nodes[n := BinaryNode(ctor, n, Slotted(b.makers, b.next + 1, other), WireEnd(z, false))])
  }

  // The agent with both inputs in place, before its output is made.
  function WithInputs(b: Build, ctor: Ctor, target: End, other: End): Build {
    var n := NodeId(b.makers, b.next);
    b.(next := Past(b.next + 1, other), free := b.free - {target, other}, open := {n},
       links := Link(FillLinks(b.links, b.makers, b.next + 1, other), Principal(n), target),
       wires := if other.WireEnd? then b.wires else b.wires + {Wire(b.makers, b.next + 1)},
       nodes := b.nodes[n := Node(ctor, map[0 := Principal(n), 1 := Slotted(b.makers, b.next + 1, other)])])
  }

  lemma LeadsInputs(b: Build, ctor: Ctor, target: End, other: End)
    requires NamesLeft(b) && Binary(ctor) && target in b.free && other in b.free && target != other
    ensures var n := NodeId(b.makers, b.next);
            Leads(b, [Begin(n, ctor)] + FillBlock(b.makers, b.next + 1, n, 1, other)
                       + [Fill(n, 0, Principal(n)), Join(Principal(n), target)], WithInputs(b, ctor, target, other))
  {
    hide Leads;
    var n := NodeId(b.makers, b.next);
    var b1 := Perform(b, Begin(n, ctor));
    LeadsOne(b, Begin(n, ctor));
    LeadsFill(b1, n, 1, other);
    var b2 := WithFill(b1, n, 1, other);
    var fill := FillBlock(b.makers, b.next + 1, n, 1, other);
    LeadsConcat(b, [Begin(n, ctor)], b1, fill, b2);
    LeadsTarget(b2, n, target);
    var b3 := b2.(free := b2.free - {Principal(n), target}, links := Link(b2.links, Principal(n), target),
                  nodes := b2.nodes[n := b2.nodes[n].(slots := b2.nodes[n].slots[0 := Principal(n)])]);
    LeadsConcat(b, [Begin(n, ctor)] + fill, b2, [Fill(n, 0, Principal(n)), Join(Principal(n), target)], b3);
    TwoSlots(n, Slotted(b.makers, b.next + 1, other));
    assert b3.nodes == WithInputs(b, ctor, target, other).nodes;
    assert b3.free == WithInputs(b, ctor, target, other).free;
  }

  lemma TwoSlots(n: NodeId, s: End)
    ensures map[][1 as nat := s][0 := Principal(n)] == map[0 := Principal(n), 1 := s]
  {
  }

  lemma LeadsOp(b: Build, ctor: Ctor, target: End, other: End)
    requires NamesLeft(b) && Binary(ctor) && target in b.free && other in b.free && target != other
    ensures Leads(b, OpBlock(ctor, b.makers, b.next, target, other), WithOp(b, ctor, target, other))
  {
    hide Leads;
    var n, z := NodeId(b.makers, b.next), Wire(b.makers, Past(b.next + 1, other));
    var s := [Begin(n, ctor)] + FillBlock(b.makers, b.next + 1, n, 1, other)
               + [Fill(n, 0, Principal(n)), Join(Principal(n), target)];
    LeadsInputs(b, ctor, target, other);
    var b3 := WithInputs(b, ctor, target, other);
    LeadsOutput(b3, n, 2);
    var b4 := b3.(next := b3.next + 1, free := b3.free + {WireEnd(z, true)}, wires := b3.wires + {z},
                  nodes := b3.nodes[n := b3.nodes[n].(slots := b3.nodes[n].slots[2 := WireEnd(z, false)])]);
    LeadsConcat(b, s, b3, [NewWire(z), Fill(n, 2, WireEnd(z, false))], b4);
    LeadsOne(b4, Finish(n));
    LeadsConcat(b, s + [NewWire(z), Fill(n, 2, WireEnd(z, false))], b4, [Finish(n)], Perform(b4, Finish(n)));
    assert b4.nodes[n].slots == WithOp(b, ctor, target, other).nodes[n].slots;
    assert b4.nodes == WithOp(b, ctor, target, other).nodes;
  }

  lemma OpNames(b: Build, ctor: Ctor, target: End, other: End)
    requires NamesLeft(b)
    ensures NamesLeft(WithOp(b, ctor, target, other))
  {
  }

  // ----- The build as a net -----

  // What the worker has done so far is `b`.
  ghost predicate Made(w: World, b: Build) {
    && w.makers == {} && b.makers == {} && b.next == w.next && NamesLeft(b)
    && Leads(Start({}, {}), w.script, b)
  }

  lemma MadeHeld(w: World, b: Build)
    requires Made(w, b)
    ensures Held(b, {})
  {
    HeldStart({}, {});
    PerformAllHeld(Start({}, {}), {}, w.script);
  }

  ghost predicate Grows(b: Build, b': Build) {
    && SubLinks(b.links, b'.links)
    && forall n :: n in b.nodes ==> n in b'.nodes && b'.nodes[n] == b.nodes[n]
  }

  lemma GrowsKeeps(b: Build, b': Build, agents: set<NodeId>)
    requires Grows(b, b') && Held(b', {}) && agents <= b.nodes.Keys
    ensures Keeps(AsNet(b), AsNet(b'), agents)
  {
    hide Named, Shaped, Covered, SubLinks, InSlot;
    assert forall n :: n in agents ==> n in b.nodes.Keys;
  }

  // `x` is the end that stands for the whole expression.
  ghost predicate Root(net: Net, x: End, t: Tree) {
    if t.BinaryTree? then x.WireEnd? && Denotes(net, x, t) else x == Principal(t.node) && Stands(net, t)
  }

  lemma RootLater(b: Build, b': Build, x: End, t: Tree)
    requires Root(AsNet(b), x, t) && Grows(b, b') && Held(b', {}) && x in b'.free
    ensures Root(AsNet(b'), x, t)
  {
    hide Named, Shaped, Covered, Grows;
    StandsAgents(AsNet(b), t);
    GrowsKeeps(b, b', Agents(t));
    if t.BinaryTree? {
      DenotesLater(AsNet(b), AsNet(b'), x, t);
    } else {
      StandsLater(AsNet(b), AsNet(b'), t);
    }
  }

  // The expression given to a principal input.
  lemma TargetDenotes(b: Build, b': Build, n: NodeId, x: End, t: Tree)
    requires Root(AsNet(b), x, t) && Held(b, {}) && Held(b', {}) && Grows(b, b') && x in b.free
    requires Principal(n) !in b.links && Principal(n) in b'.links && b'.links[Principal(n)] == x
    ensures Denotes(AsNet(b'), Principal(n), t)
  {
    hide Named, Shaped, Covered, Partner, Stands, Agents;
    var L, L' := b.links, b'.links;
    StandsAgents(AsNet(b), t);
    GrowsKeeps(b, b', Agents(t));
    StandsLater(AsNet(b), AsNet(b'), t);
    if t.BinaryTree? {
      PartnerInvolution(L, x);
      RootOuter(AsNet(b), AsNet(b'), t);
      LinkedPrincipal(L, n, x);
      LinkSub(L, L', Principal(n), x);
      LaterPartner(Link(L, Principal(n), x), L', Principal(n));
    } else {
      LinkedToPrincipal(L', n, x);
    }
  }

  lemma LinkedToPrincipal(L: Links, n: NodeId, x: End)
    requires Matching(L) && Principal(n) in L && L[Principal(n)] == x && x.Principal?
    ensures Partner(L, Principal(n)) == x
  {
  }

  // The expression given to another input.
  lemma SlotDenotes(b: Build, b': Build, n: NodeId, i: nat, s: End, x: End, t: Tree)
    requires Root(AsNet(b), x, t) && Held(b, {}) && Held(b', {}) && Grows(b, b')
    requires n in b'.nodes && i in b'.nodes[n].slots && b'.nodes[n].slots[i] == s && s.WireEnd?
    requires if x.WireEnd? then s == x else s.Mate() in b'.links && b'.links[s.Mate()] == x
    ensures Denotes(AsNet(b'), s, t)
  {
    hide Named, Shaped, Covered, Partner, Stands, Agents;
    StandsAgents(AsNet(b), t);
    GrowsKeeps(b, b', Agents(t));
    SlotFree(AsNet(b'), n, i);
    if x.WireEnd? {
      DenotesLater(AsNet(b), AsNet(b'), s, t);
    } else {
      StandsLater(AsNet(b), AsNet(b'), t);
      AcrossWire(b'.links, s);
    }
  }

  // ----- Running one word -----

  // From `w` the worker came to `w'`: it has one more end in hand, the root of the new expression `t`.
  ghost predicate Grown(w: World, b: Build, w': World, b': Build, x: End, t: Tree) {
    && Made(w', b') && Grows(b, b') && w'.stack == w.stack + [Ref(x)]
    && b'.free == b.free + {x} && x !in b.free
    && b'.nodes.Keys == b.nodes.Keys + Agents(t) && b.nodes.Keys !! Agents(t)
    && Root(AsNet(b'), x, t)
  }

  lemma NewAgent(w: World, b: Build)
    requires Made(w, b)
    ensures var n, m := NodeId({}, w.next), b.makers;
            && n !in b.nodes && Principal(n) !in b.links && Principal(n) !in b.free
            && (forall k, s :: k >= w.next ==>
                WireEnd(Wire({}, k), s) !in b.links && WireEnd(Wire({}, k), s) !in b.free)
    ensures Matching(b.links) && forall e :: e in b.free ==> e !in b.links
  {
    hide Shaped, DistinctSlots, InSlot, Leads, NamesLeft;
    MadeHeld(w, b);
    var n := NodeId({}, w.next);
    assert !Script.Known(b, {}, Principal(n));
    forall k, s | k >= w.next
      ensures WireEnd(Wire({}, k), s) !in b.links && WireEnd(Wire({}, k), s) !in b.free
    {
      assert !Script.Known(b, {}, WireEnd(Wire({}, k), s));
    }
  }

  lemma MadeNext(w: World, b: Build, w': World, script: seq<Action>, b': Build)
    requires Made(w, b) && Leads(b, script, b') && NamesLeft(b') && b'.makers == {}
    requires w'.makers == {} && w'.script == w.script + script && w'.next == b'.next
    ensures Made(w', b')
  {
    hide Leads, NamesLeft;
    LeadsConcat(Start({}, {}), w.script, b, script, b');
  }

  lemma GrowsBy(b: Build, b': Build, n: NodeId, node: Node)
    requires n !in b.nodes && b'.nodes == b.nodes[n := node] && SubLinks(b.links, b'.links)
    ensures Grows(b, b')
  {
  }

  lemma SubLinksLink(L: Links, M: Links, l: End, r: End)
    requires SubLinks(L, M) && l !in M && r !in M && l != r
    ensures SubLinks(L, Link(M, l, r))
  {
    LinkMatching(M, l, r);
  }

  lemma BuildZero(w: World, b: Build) returns (w': World, b': Build, x: End, t: Tree)
    requires Made(w, b)
    ensures NewNode(w, ZERO) == Some(w') && Grown(w, b, w', b', x, t) && Meaning(t) == Zero
  {
    hide Leads, NamesLeft, NewNode, Matching;
    var n := NodeId({}, w.next);
    NewZero(w);
    w' := NewNode(w, ZERO).value;
    LeadsZero(b);
    b', x, t := WithZero(b), Principal(n), ZeroTree(n);
    NewAgent(w, b);
    MadeNext(w, b, w', ZeroBlock({}, w.next), b');
  }

  lemma BuildAdd1(w: World, b: Build, base: seq<Machine.Value>, y: End, p: Tree)
    returns (w': World, b': Build, x: End, t: Tree)
    requires Made(w, b) && w.stack == base + [Ref(y)] && y in b.free && Root(AsNet(b), y, p)
    ensures NewNode(w, ADD1) == Some(w') && t == Add1Tree(NodeId({}, w.next), p) && w'.stack == base + [Ref(x)]
    ensures Made(w', b') && Grows(b, b') && b'.free == b.free - {y} + {x} && x !in b.free
    ensures b'.nodes.Keys == b.nodes.Keys + {t.node} && t.node !in b.nodes && Root(AsNet(b'), x, t)
  {
    hide Leads, NamesLeft, NewNode, Matching, Root, Denotes, Held, Grows;
    var n := NodeId({}, w.next);
    NewSucc(w, base, y);
    w' := NewNode(w, ADD1).value;
    LeadsSucc(b, y);
    b', x, t := WithSucc(b, y), Principal(n), Add1Tree(n, p);
    NewAgent(w, b);
    MadeNext(w, b, w', SuccBlock({}, w.next, y), b');
    MadeHeld(w, b);
    MadeHeld(w', b');
    Add1Root(b, b', n, y, p);
  }

  lemma Add1Root(b: Build, b': Build, n: NodeId, y: End, p: Tree)
    requires b.makers == {} && n == NodeId({}, b.next) && b' == WithSucc(b, y) && Held(b, {}) && Held(b', {})
    requires Matching(b.links) && n !in b.nodes && y in b.free && y !in b.links
    requires WireEnd(Wire({}, b.next + 1), true) !in b.links && WireEnd(Wire({}, b.next + 1), true) !in b.free
    requires Root(AsNet(b), y, p)
    ensures Grows(b, b') && Root(AsNet(b'), Principal(n), Add1Tree(n, p))
  {
    hide Root, Denotes, Held, Matching;
    var s := Slotted({}, b.next + 1, y);
    if y.Principal? {
      SubLinksLink(b.links, b.links, WireEnd(Wire({}, b.next + 1), true), y);
    }
    GrowsBy(b, b', n, Add1Node(n, s));
    SlotDenotes(b, b', n, 0, s, y, p);
    RootAgents(b, y, p);
    RootOfAdd1(b', n, s, p);
  }

  lemma RootAgents(b: Build, y: End, p: Tree)
    requires Root(AsNet(b), y, p)
    ensures Agents(p) <= b.nodes.Keys
  {
    StandsAgents(AsNet(b), p);
  }

  lemma RootOfAdd1(b: Build, n: NodeId, s: End, p: Tree)
    requires n in b.nodes && b.nodes[n] == Add1Node(n, s) && s.WireEnd? && n !in Agents(p) && Denotes(AsNet(b), s, p)
    ensures Root(AsNet(b), Principal(n), Add1Tree(n, p))
  {
    hide Denotes;
  }

  lemma RootOfBinary(b: Build, c: Ctor, n: NodeId, s: End, z: Wire, l: Tree, r: Tree)
    requires (c == ADD || c == MUL) && n in b.nodes && b.nodes[n] == BinaryNode(c, n, s, WireEnd(z, false))
               && s.WireEnd?
    requires n !in Agents(l) && n !in Agents(r) && Agents(l) !! Agents(r)
    requires Denotes(AsNet(b), Principal(n), l) && Denotes(AsNet(b), s, r)
    requires Matching(b.links) && WireEnd(z, true) !in b.links && WireEnd(z, false) !in b.links
    ensures Root(AsNet(b), WireEnd(z, true), BinaryTree(c, n, l, r))
  {
    hide Matching, Partner;
    var t := BinaryTree(c, n, l, r);
    assert Stands(AsNet(b), t) by {
      hide Denotes;
    }
    AcrossWire(b.links, WireEnd(z, true));
    assert Denotes(AsNet(b), WireEnd(z, true), t) by {
      hide Stands;
    }
  }

  lemma BuildBinary(w: World, b: Build, base: seq<Machine.Value>, c: Ctor, y: End, l: Tree, y': End, r: Tree)
    returns (w': World, b': Build, x: End, t: Tree)
    requires Made(w, b) && w.stack == base + [Ref(y)] + [Ref(y')] && y in b.free && y' in b.free && y != y'
    requires (c == ADD || c == MUL) && Root(AsNet(b), y, l) && Root(AsNet(b), y', r) && Agents(l) !! Agents(r)
    ensures NewNode(w, c) == Some(w') && t == BinaryTree(c, NodeId({}, w.next), l, r) && w'.stack == base + [Ref(x)]
    ensures Made(w', b') && Grows(b, b') && b'.free == b.free - {y, y'} + {x} && x !in b.free
    ensures b'.nodes.Keys == b.nodes.Keys + {t.node} && t.node !in b.nodes && Root(AsNet(b'), x, t)
  {
    hide Leads, NamesLeft, NewNode, Matching, Root, Denotes, Held, Grows;
    var n, z := NodeId({}, w.next), Wire({}, Past(w.next + 1, y'));
    NewOp(c, w, base, y, y');
    w' := NewNode(w, c).value;
    LeadsOp(b, c, y, y');
    OpNames(b, c, y, y');
    b', x, t := WithOp(b, c, y, y'), WireEnd(z, true), BinaryTree(c, n, l, r);
    NewAgent(w, b);
    MadeNext(w, b, w', OpBlock(c, {}, w.next, y, y'), b');
    MadeHeld(w, b);
    MadeHeld(w', b');
    BinaryRoot(b, b', c, n, z, y, l, y', r);
  }

  lemma BinaryRoot(b: Build, b': Build, c: Ctor, n: NodeId, z: Wire, y: End, l: Tree, y': End, r: Tree)
    requires b.makers == {} && n == NodeId({}, b.next) && z == Wire({}, Past(b.next + 1, y'))
    requires (c == ADD || c == MUL) && b' == WithOp(b, c, y, y') && Held(b, {}) && Held(b', {})
    requires Matching(b.links) && n !in b.nodes && Principal(n) !in b.links && Principal(n) !in b.free
    requires y in b.free && y !in b.links && y' in b.free && y' !in b.links && y != y'
    requires WireEnd(Wire({}, b.next + 1), true) !in b.links && WireEnd(Wire({}, b.next + 1), true) !in b.free
    requires Root(AsNet(b), y, l) && Root(AsNet(b), y', r) && Agents(l) !! Agents(r)
    ensures Grows(b, b') && Root(AsNet(b'), WireEnd(z, true), BinaryTree(c, n, l, r))
  {
    hide Root, Denotes, Matching, Named, Shaped, Covered, Agents;
    var s, x := Slotted({}, b.next + 1, y'), WireEnd(Wire({}, b.next + 1), true);
    if y'.Principal? {
      SubLinksLink(b.links, b.links, x, y');
    }
    SubLinksLink(b.links, FillLinks(b.links, {}, b.next + 1, y'), Principal(n), y);
    GrowsBy(b, b', n, BinaryNode(c, n, s, WireEnd(z, false)));
    TargetDenotes(b, b', n, y, l);
    SlotDenotes(b, b', n, 1, s, y', r);
    RootAgents(b, y, l);
    RootAgents(b, y', r);
    SlotFree(AsNet(b'), n, 2);
    assert WireEnd(z, true) in b'.free;
    RootOfBinary(b', c, n, s, z, l, r);
  }

  // ----- Running a whole expression -----

  lemma GrowsTransitive(a: Build, b: Build, c: Build)
    requires Grows(a, b) && Grows(b, c)
    ensures Grows(a, c)
  {
    hide Matching;
  }

  lemma {:induction false} BuildExpr(e: Expr, w: World, b: Build, rest: seq<Opcode>)
    returns (w': World, b': Build, x: End, t: Tree)
    requires Made(w, b)
    ensures Result(Run(Program(), 0, Postfix(e) + rest, map[], w)) == Result(Run(Program(), 0, rest, map[], w'))
    ensures Grown(w, b, w', b', x, t) && Meaning(t) == e
    decreases e
  {
    hide Run, Program, Result, Made, Root, Grows, NewNode;
    match e
    case Zero =>
      w', b', x, t := BuildZero(w, b);
      RunWord(ZERO, rest, w, w');
    case Add1(p) =>
      assert Postfix(e) + rest == Postfix(p) + (WordOf(ADD1) + rest);
      var w1, b1, y, q := BuildExpr(p, w, b, WordOf(ADD1) + rest);
      w', b', x, t := BuildAdd1(w1, b1, w.stack, y, q);
      RunWord(ADD1, rest, w1, w');
      GrowsTransitive(b, b1, b');
    case Add(l, r) =>
      assert Postfix(e) + rest == Postfix(l) + (Postfix(r) + (WordOf(ADD) + rest));
      w', b', x, t := BuildOperands(e, ADD, l, r, w, b, rest);
    case Mul(l, r) =>
      assert Postfix(e) + rest == Postfix(l) + (Postfix(r) + (WordOf(MUL) + rest));
      w', b', x, t := BuildOperands(e, MUL, l, r, w, b, rest);
  }

  lemma {:induction false} BuildOperands(e: Expr, c: Ctor, l: Expr, r: Expr, w: World, b: Build, rest: seq<Opcode>)
    returns (w': World, b': Build, x: End, t: Tree)
    requires Made(w, b) && ((e == Add(l, r) && c == ADD) || (e == Mul(l, r) && c == MUL))
    ensures Result(Run(Program(), 0, Postfix(l) + (Postfix(r) + (WordOf(c) + rest)), map[], w))
         == Result(Run(Program(), 0, rest, map[], w'))
    ensures Grown(w, b, w', b', x, t) && Meaning(t) == e
    decreases e, 0
  {
    hide Run, Program, Result, Made, Root, Grows, NewNode, Postfix;
    var w1, b1, y, tl := BuildExpr(l, w, b, Postfix(r) + (WordOf(c) + rest));
    var w2, b2, y', tr := BuildExpr(r, w1, b1, WordOf(c) + rest);
    MadeHeld(w2, b2);
    RootLater(b1, b2, y, tl);
    w', b', x, t := BuildBinary(w2, b2, w.stack, c, y, tl, y', tr);
    RunWord(c, rest, w2, w');
    GrowsTransitive(b, b1, b2);
    GrowsTransitive(b, b2, b');
    assert b'.free == b.free + {x};
  }

  // Running the expression on an empty stack builds `net` and leaves `x`.
  ghost predicate Builds(e: Expr, net: Net, x: End) {
    var o := Run(Program(), 0, Postfix(e), map[], World({}, 0, [], []));
    && o.Done? && o.world.stack == [Ref(x)]
    && AllAllowed(Start({}, {}), o.world.script)
    && PerformAll(Start({}, {}), o.world.script).free == {x} && PerformAll(Start({}, {}), o.world.script).open == {}
    && net == AsNet(PerformAll(Start({}, {}), o.world.script))
  }

  lemma ProgramBuilds(e: Expr) returns (net: Net, x: End, t: Tree)
    ensures Builds(e, net, x) && WellFormed(net, {x})
    ensures Root(net, x, t) && Meaning(t) == e && Agents(t) == net.nodes.Keys
  {
    hide Program, Root, Grows, WellFormed;
    var w := World({}, 0, [], []);
    assert Postfix(e) + [] == Postfix(e);
    var w', b', x', t' := BuildExpr(e, w, Start({}, {}), []);
    net, x, t := AsNet(b'), x', t';
    MadeHeld(w', b');
    BuildWellFormed(b');
    assert b'.free == {x};
  }

  lemma BuildsOne(e: Expr, net: Net, x: End, net': Net, x': End)
    requires Builds(e, net, x) && Builds(e, net', x')
    ensures net == net' && x == x'
  {
    hide Program, Run, AllAllowed, PerformAll;
    assert [Ref(x)][0] == [Ref(x')][0];
  }

  // `x` stands for the number `k`, and the net holds nothing else.
  ghost predicate IsNumber(net: Net, x: End, k: nat) {
    if x.WireEnd? then Number(net, x, k, net.nodes.Keys)
    else
      && x.node in net.nodes
      && if k == 0 then net.nodes[x.node] == ZeroNode(x.node) && net.nodes.Keys == {x.node}
         else IsAdd1(net, x.node) && Number(net, net.nodes[x.node].slots[0], k - 1, net.nodes.Keys - {x.node})
  }

  lemma NumberFinished(net: Net, x: End, k: nat)
    requires IsNumber(net, x, k) && Matching(net.links)
    ensures Finished(Nats(), net)
  {
    hide Partner, Program, Number;
    if x.WireEnd? {
      NumberNodes(net, x, k, net.nodes.Keys);
    } else if k > 0 {
      NumberNodes(net, net.nodes[x.node].slots[0], k - 1, net.nodes.Keys - {x.node});
    }
    assert forall n :: n in net.nodes.Keys ==> net.nodes[n].ctor == ZERO || net.nodes[n].ctor == ADD1;
    forall l, r
      ensures !Ready(Nats(), net, l, r)
    {
      if l in net.nodes && r in net.nodes {
        NoRule(net.nodes[l].ctor, net.nodes[r].ctor);
      }
    }
  }

  lemma NoRule(c: Ctor, d: Ctor)
    requires (c == ZERO || c == ADD1) && (d == ZERO || d == ADD1)
    ensures FindRule(Rules(), c, d) == None
  {
    var rules := Rules();
    assert rules[8..] == [];
    NoneFrom(rules, 8, c, d);
  }

  lemma {:induction false} NoneFrom(rules: seq<Rule>, i: nat, c: Ctor, d: Ctor)
    requires i <= |rules| && rules[i..] == []
    requires forall j :: 0 <= j < i ==> !Matches(rules[j], c, d)
    ensures FindRule(rules, c, d) == None
  {
    assert rules[..i] == rules;
    NonePrefix(rules, c, d);
  }

  lemma {:induction false} NonePrefix(rules: seq<Rule>, c: Ctor, d: Ctor)
    requires forall j :: 0 <= j < |rules| ==> !Matches(rules[j], c, d)
    ensures FindRule(rules, c, d) == None
  {
    if rules != [] {
      NonePrefix(rules[1..], c, d);
    }
  }

  // There is a complete run, and it ends in the value of the expression.
  lemma ProgramEvaluates(e: Expr, net: Net, x: End) returns (tasks: seq<Task>, last: Net)
    requires Builds(e, net, x)
    ensures WellFormed(net, {x}) && Handles(Nats(), net, tasks, last) && Finished(Nats(), last)
    ensures |tasks| == Cost(e) && IsNumber(last, x, NatTrees.Value(e))
  {
    hide Program, WellFormed, Partner, Nats, Builds, Finished;
    var net', x', t := ProgramBuilds(e);
    BuildsOne(e, net, x, net', x');
    tasks, last := EvaluateRoot(net, x, t);
    NumberFinished(last, x, NatTrees.Value(e));
  }

  lemma EvaluateRoot(net: Net, x: End, t: Tree) returns (tasks: seq<Task>, last: Net)
    requires WellFormed(net, {x}) && Root(net, x, t) && Agents(t) == net.nodes.Keys
    ensures Handles(Nats(), net, tasks, last) && Matching(last.links)
    ensures |tasks| == Cost(Meaning(t)) && IsNumber(last, x, NatTrees.Value(Meaning(t)))
  {
    hide Program, WellFormed, Partner, Nats, Handles, Outer, Number;
    var F: set<NodeId>;
    match t
    case ZeroTree(n) =>
      NothingReduced(net, {x}, {n});
      tasks, last := [], net;
    case Add1Tree(n, p) =>
      var s := net.nodes[n].slots[0];
      assert Denotes(net, s, p);
      WatchSlot(net, {x}, Agents(p), n, 0);
      tasks, last, F := Evaluate(net, {x}, s, p);
      NodeStays(net, {x}, Agents(p), tasks, last, F, n);
      assert last.nodes.Keys == F + {n} && F + {n} - {n} == F;
    case BinaryTree(_, _, _, _) =>
      assert Watch(net, {x}, Agents(t), x);
      tasks, last, F := Evaluate(net, {x}, x, t);
      assert last.nodes.Keys == F;
  }

  // Whatever the order of the tasks, a complete run takes the same number of interactions and leaves
  // the value of the expression, and no other agent.
  lemma EveryOrder(e: Expr, net: Net, x: End, tasks: seq<Task>, last: Net)
    requires Builds(e, net, x) && Handles(Nats(), net, tasks, last) && Finished(Nats(), last)
    ensures |tasks| == Cost(e) && IsNumber(last, x, NatTrees.Value(e))
  {
    hide Program, WellFormed, Partner, Nats, Handles, Builds, Finished, IsNumber;
    var tasks', last' := ProgramEvaluates(e, net, x);
    NatsGood();
    UniqueResult(Nats(), net, {x}, tasks, last, tasks', last');
  }

  // And no order gets stuck or goes on for ever.
  lemma AnyStart(e: Expr, net: Net, x: End, tasks: seq<Task>, mid: Net) returns (rest: seq<Task>, last: Net)
    requires Builds(e, net, x) && Handles(Nats(), net, tasks, mid)
    ensures |tasks| + |rest| == Cost(e) && Handles(Nats(), mid, rest, last) && IsNumber(last, x, NatTrees.Value(e))
  {
    hide Program, WellFormed, Partner, Nats, Handles, Builds, Finished, IsNumber;
    var tasks', last' := ProgramEvaluates(e, net, x);
    NatsGood();
    last := last';
    rest := OrderDoesNotMatter(Nats(), net, {x}, tasks', last, tasks, mid);
  }

  // ----- Numerals -----

  function Numeral(k: nat): Expr {
    if k == 0 then Zero else Add1(Numeral(k - 1))
  }

  lemma {:induction false} NumeralValue(k: nat)
    ensures NatTrees.Value(Numeral(k)) == k && Cost(Numeral(k)) == 0
  {
    if k > 0 {
      NumeralValue(k - 1);
    }
  }

  lemma OfNumerals(m: nat, n: nat)
    ensures NatTrees.Value(Mul(Numeral(m), Numeral(n))) == m * n
    ensures NatTrees.Value(Add(Numeral(m), Numeral(n))) == m + n && Cost(Add(Numeral(m), Numeral(n))) == m + 1
  {
    NumeralValue(m);
    NumeralValue(n);
    TimesIsProduct(m, n);
  }

  // `m n mul` gives m * n ...
  lemma MulNumerals(m: nat, n: nat, product: nat, net: Net, x: End, tasks: seq<Task>, last: Net)
    requires product == m * n && Builds(Mul(Numeral(m), Numeral(n)), net, x)
    requires Handles(Nats(), net, tasks, last) && Finished(Nats(), last)
    ensures IsNumber(last, x, product)
  {
    hide *;
    OfNumerals(m, n);
    EveryOrder(Mul(Numeral(m), Numeral(n)), net, x, tasks, last);
  }

  // ... and `m n add` gives m + n in exactly m + 1 interactions.
  lemma AddNumerals(m: nat, n: nat, net: Net, x: End, tasks: seq<Task>, last: Net)
    requires Builds(Add(Numeral(m), Numeral(n)), net, x)
    requires Handles(Nats(), net, tasks, last) && Finished(Nats(), last)
    ensures IsNumber(last, x, m + n) && |tasks| == m + 1
  {
    hide *;
    OfNumerals(m, n);
    EveryOrder(Add(Numeral(m), Numeral(n)), net, x, tasks, last);
  }
}
