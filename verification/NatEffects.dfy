/**
 What each rule for natural numbers adds to a net.
 */
module NatEffects {
  import opened Links
  import opened Script
  import opened Machine
  import opened Execution
  import opened Compiler
  import opened Net
  import opened Reading
  import opened NatRules

  // ----- The compiled rules -----

  function Code(texts: seq<string>): Function {
    match CompileBody(NAMES, Words(texts), map[])
    case None => []
    case Some(piece) => piece.opcodes
  }

  function Program(): seq<Function> {
    [Code(ZERO_ADD), Code(ADD1_ADD), Code(ZERO_ERASE), Code(ADD1_ERASE),
     Code(ZERO_DUP), Code(ADD1_DUP), Code(ZERO_MUL), Code(ADD1_MUL)]
  }

  function Nats(): System {
    System(Program(), Rules())
  }

  lemma MeaningOf(f: nat, texts: seq<string>, m: set<NodeId>, ins: seq<End>, w: World)
    requires f < 8 && Source()[f] == Body(texts) && Program()[f] == Code(texts)
    requires Standing(f, texts, 0, map[], Before(m, ins)) == Some(w)
    ensures CompileBody(NAMES, Words(texts), map[]).Some?
    ensures Interpret(Source(), f, NAMES, Words(texts), map[], Before(m, ins)) == Some(w)
  {
    assert Words(texts)[0..] == Words(texts);
    InterpretedCompiles(Source(), f, NAMES, Words(texts), map[], map[], Before(m, ins));
  }

  // ----- Scripts, one block at a time -----

  lemma PerformCons(b: Build, a: Action, rest: seq<Action>)
    requires Allowed(b, a)
    ensures AllAllowed(b, [a] + rest) <==> AllAllowed(Perform(b, a), rest)
    ensures AllAllowed(Perform(b, a), rest) ==> PerformAll(b, [a] + rest) == PerformAll(Perform(b, a), rest)
  {
    assert ([a] + rest)[1..] == rest;
  }

  lemma {:induction false} PerformConcat(b: Build, s: seq<Action>, t: seq<Action>)
    requires AllAllowed(b, s) && AllAllowed(PerformAll(b, s), t)
    ensures AllAllowed(b, s + t) && PerformAll(b, s + t) == PerformAll(PerformAll(b, s), t)
    decreases |s|
  {
    if s == [] {
      assert s + t == t;
    } else {
      assert (s + t)[1..] == s[1..] + t;
      PerformConcat(Perform(b, s[0]), s[1..], t);
    }
  }

  // `script` leads from `b` to `c`.
  predicate Leads(b: Build, script: seq<Action>, c: Build) {
    AllAllowed(b, script) && PerformAll(b, script) == c
  }

  lemma LeadsConcat(b: Build, s: seq<Action>, c: Build, t: seq<Action>, d: Build)
    requires Leads(b, s, c) && Leads(c, t, d)
    ensures Leads(b, s + t, d)
  {
    PerformConcat(b, s, t);
  }

  lemma LeadsOne(b: Build, a: Action)
    requires Allowed(b, a)
    ensures Leads(b, [a], Perform(b, a))
  {
    assert [a][1..] == [];
  }

  // No end the body has in hand carries a name not handed out yet.
  ghost predicate NamesLeft(b: Build) {
    && b.open == {}
    && (forall e :: e in b.free ==>
          if e.Principal? then e.node.makers == b.makers ==> e.node.k < b.next
          else e.wire.makers == b.makers ==> e.wire.k < b.next)
    && (forall n :: n in b.nodes ==> n.k < b.next)
  }

  lemma LeadsJoin(b: Build, l: End, r: End)
    requires NamesLeft(b) && l in b.free && r in b.free && l != r
    ensures Leads(b, [Join(l, r)], b.(free := b.free - {l, r}, links := Link(b.links, l, r)))
    ensures NamesLeft(b.(free := b.free - {l, r}, links := Link(b.links, l, r)))
  {
    LeadsOne(b, Join(l, r));
  }

  function WithZero(b: Build): Build {
    var n := NodeId(b.makers, b.next);
    b.(next := b.next + 1, free := b.free + {Principal(n)}, nodes := b.nodes[n := Node(ZERO, map[0 := Principal(n)])])
  }

  lemma LeadsZero(b: Build)
    requires NamesLeft(b)
    ensures Leads(b, ZeroBlock(b.makers, b.next), WithZero(b)) && NamesLeft(WithZero(b))
  {
    var n := NodeId(b.makers, b.next);
    var a0, a1, a2 := Begin(n, ZERO), Fill(n, 0, Principal(n)), Finish(n);
    var b1 := Perform(b, a0);
    var b2 := Perform(b1, a1);
    LeadsOne(b2, a2);
    PerformCons(b1, a1, [a2]);
    PerformCons(b, a0, [a1] + [a2]);
    assert [a0] + ([a1] + [a2]) == ZeroBlock(b.makers, b.next);
    assert map[][0 as nat := Principal(n)] == map[0 := Principal(n)];
    assert Perform(b2, a2).nodes == WithZero(b).nodes;
  }

  function WithAdd1(b: Build, e: End): Build {
    var n := NodeId(b.makers, b.next);
    b.(next := b.next + 1, free := b.free - {e} + {Principal(n)},
       nodes := b.nodes[n := Node(ADD1, map[0 := e, 1 := Principal(n)])])
  }

  lemma LeadsAdd1(b: Build, e: End)
    requires NamesLeft(b) && e in b.free && e.WireEnd?
    ensures Leads(b, Add1Block(b.makers, b.next, e), WithAdd1(b, e)) && NamesLeft(WithAdd1(b, e))
  {
    hide Leads, Perform, Allowed;
    Add1Steps(b, e);
    var n := NodeId(b.makers, b.next);
    LeadsFour(b, Begin(n, ADD1), Fill(n, 0, e), Fill(n, 1, Principal(n)), Finish(n));
    Add1Left(b, e);
  }

  lemma Add1Left(b: Build, e: End)
    requires NamesLeft(b)
    ensures NamesLeft(WithAdd1(b, e))
  {
  }

  ghost predicate Steps(b: Build, a0: Action, a1: Action, a2: Action, a3: Action) {
    && Allowed(b, a0)
    && var b1 := Perform(b, a0);
       && Allowed(b1, a1)
       && var b2 := Perform(b1, a1);
          && Allowed(b2, a2) && Allowed(Perform(b2, a2), a3)
  }

  ghost function Fourth(b: Build, a0: Action, a1: Action, a2: Action, a3: Action): Build
    requires Steps(b, a0, a1, a2, a3)
  {
    Perform(Perform(Perform(Perform(b, a0), a1), a2), a3)
  }

  // Four actions, one after the other.
  lemma LeadsFour(b: Build, a0: Action, a1: Action, a2: Action, a3: Action)
    requires Steps(b, a0, a1, a2, a3)
    ensures Leads(b, [a0, a1, a2, a3], Fourth(b, a0, a1, a2, a3))
  {
    hide Allowed, Perform;
    var b1 := Perform(b, a0);
    var b2 := Perform(b1, a1);
    var b3 := Perform(b2, a2);
    LeadsOne(b3, a3);
    PerformCons(b2, a2, [a3]);
    PerformCons(b1, a1, [a2] + [a3]);
    PerformCons(b, a0, [a1] + ([a2] + [a3]));
    assert [a0] + ([a1] + ([a2] + [a3])) == [a0, a1, a2, a3];
  }

  lemma Add1Steps(b: Build, e: End)
    requires NamesLeft(b) && e in b.free && e.WireEnd?
    ensures var n := NodeId(b.makers, b.next);
            var a0, a1, a2, a3 := Begin(n, ADD1), Fill(n, 0, e), Fill(n, 1, Principal(n)), Finish(n);
            Steps(b, a0, a1, a2, a3) && Fourth(b, a0, a1, a2, a3) == WithAdd1(b, e)
  {
    hide NamesLeft;
    NoneOpen(b);
    var n := NodeId(b.makers, b.next);
    var c := Fourth(b, Begin(n, ADD1), Fill(n, 0, e), Fill(n, 1, Principal(n)), Finish(n));
    assert c.nodes == WithAdd1(b, e).nodes && c.free == WithAdd1(b, e).free;
  }

  lemma NoneOpen(b: Build)
    requires NamesLeft(b)
    ensures b.open == {}
  {
  }

  function WithErase(b: Build, e: End): Build {
    var n := NodeId(b.makers, b.next);
    b.(next := b.next + 1, free := b.free - {e}, links := Link(b.links, Principal(n), e),
       nodes := b.nodes[n := Node(ERASE, map[0 := Principal(n)])])
  }

  lemma LeadsErase(b: Build, e: End)
    requires NamesLeft(b) && e in b.free
    ensures Leads(b, EraseBlock(b.makers, b.next, e), WithErase(b, e)) && NamesLeft(WithErase(b, e))
  {
    var n := NodeId(b.makers, b.next);
    var a0, a1, a2, a3 := Begin(n, ERASE), Fill(n, 0, Principal(n)), Join(Principal(n), e), Finish(n);
    LeadsFour(b, a0, a1, a2, a3);
    var c := Fourth(b, a0, a1, a2, a3);
    assert c.nodes == WithErase(b, e).nodes && c.free == WithErase(b, e).free;
  }

  function WithDup(b: Build, e: End): Build {
    var n, x, y := NodeId(b.makers, b.next), Wire(b.makers, b.next + 1), Wire(b.makers, b.next + 2);
    b.(next := b.next + 3, free := b.free - {e} + {WireEnd(x, true), WireEnd(y, true)},
       links := Link(b.links, Principal(n), e), wires := b.wires + {x, y},
       nodes := b.nodes[n := Node(DUP, map[0 := Principal(n), 1 := WireEnd(x, false), 2 := WireEnd(y, false)])])
  }

  // A principal input port is filled and connected.
  lemma LeadsTarget(b: Build, n: NodeId, e: End)
    requires b.open == {n} && n in b.nodes && b.nodes[n].ctor.IsPrincipal(0) && 0 !in b.nodes[n].slots
    requires Principal(n) in b.free && e in b.free && e != Principal(n)
    ensures Leads(b, [Fill(n, 0, Principal(n)), Join(Principal(n), e)],
                  b.(free := b.free - {Principal(n), e}, links := Link(b.links, Principal(n), e),
                     nodes := b.nodes[n := b.nodes[n].(slots := b.nodes[n].slots[0 := Principal(n)])]))
  {
    var a0, a1 := Fill(n, 0, Principal(n)), Join(Principal(n), e);
    LeadsOne(Perform(b, a0), a1);
    PerformCons(b, a0, [a1]);
    assert [a0] + [a1] == [a0, a1];
  }

  // An output port gets one end of a new wire; the other is in hand.
  lemma LeadsOutput(b: Build, n: NodeId, i: nat)
    requires b.open == {n} && n in b.nodes && i < b.nodes[n].ctor.Arity() && i !in b.nodes[n].slots
    requires !b.nodes[n].ctor.IsPrincipal(i)
    requires var x := Wire(b.makers, b.next); WireEnd(x, false) !in b.free && WireEnd(x, true) !in b.free
    ensures var x := Wire(b.makers, b.next);
            Leads(b, [NewWire(x), Fill(n, i, WireEnd(x, false))],
                  b.(next := b.next + 1, free := b.free + {WireEnd(x, true)}, wires := b.wires + {x},
                     nodes := b.nodes[n := b.nodes[n].(slots := b.nodes[n].slots[i := WireEnd(x, false)])]))
  {
    var x := Wire(b.makers, b.next);
    var a0, a1 := NewWire(x), Fill(n, i, WireEnd(x, false));
    var b1 := Perform(b, a0);
    LeadsOne(b1, a1);
    PerformCons(b, a0, [a1]);
    assert [a0] + [a1] == [a0, a1];
    assert Perform(b1, a1).free == b.free + {WireEnd(x, true)};
  }

  lemma LeadsDup(b: Build, e: End)
    requires NamesLeft(b) && e in b.free
    ensures Leads(b, DupBlock(b.makers, b.next, e), WithDup(b, e)) && NamesLeft(WithDup(b, e))
  {
    hide Leads;
    var n, x, y := NodeId(b.makers, b.next), Wire(b.makers, b.next + 1), Wire(b.makers, b.next + 2);
    var b1 := Perform(b, Begin(n, DUP));
    LeadsOne(b, Begin(n, DUP));
    var s1 := [Begin(n, DUP)] + [Fill(n, 0, Principal(n)), Join(Principal(n), e)];
    var b2 := b1.(free := b1.free - {Principal(n), e}, links := Link(b.links, Principal(n), e),
                  nodes := b1.nodes[n := Node(DUP, map[][0 := Principal(n)])]);
    LeadsTarget(b1, n, e);
    LeadsConcat(b, [Begin(n, DUP)], b1, [Fill(n, 0, Principal(n)), Join(Principal(n), e)], b2);
    LeadsOutputs(b2, n, b2.nodes[n].slots);
    var b3 := AfterOutputs(b2, n, b2.nodes[n].slots);
    var s2 := [NewWire(x), Fill(n, 1, WireEnd(x, false)), NewWire(y), Fill(n, 2, WireEnd(y, false)), Finish(n)];
    LeadsConcat(b, s1, b2, s2, b3);
    assert s1 + s2 == DupBlock(b.makers, b.next, e);
    assert b3.nodes == WithDup(b, e).nodes && b3.free == WithDup(b, e).free && b3.wires == WithDup(b, e).wires;
  }

  function AfterOutputs(b: Build, n: NodeId, slots: map<nat, End>): Build {
    var x, y := Wire(b.makers, b.next), Wire(b.makers, b.next + 1);
    b.(next := b.next + 2, free := b.free + {WireEnd(x, true)} + {WireEnd(y, true)}, open := {},
       wires := b.wires + {x} + {y},
       nodes := b.nodes[n := Node(DUP, slots[1 := WireEnd(x, false)][2 := WireEnd(y, false)])])
  }

  lemma LeadsOutputs(b: Build, n: NodeId, slots: map<nat, End>)
    requires b.open == {n} && n in b.nodes && b.nodes[n] == Node(DUP, slots) && slots.Keys == {0}
    requires forall e :: e in b.free && e.WireEnd? && e.wire.makers == b.makers ==> e.wire.k < b.next
    ensures var x, y := Wire(b.makers, b.next), Wire(b.makers, b.next + 1);
            Leads(b, [NewWire(x), Fill(n, 1, WireEnd(x, false)), NewWire(y), Fill(n, 2, WireEnd(y, false)), Finish(n)],
                  AfterOutputs(b, n, slots))
  {
    hide Leads;
    var x, y := Wire(b.makers, b.next), Wire(b.makers, b.next + 1);
    var s1, s2 := [NewWire(x), Fill(n, 1, WireEnd(x, false))], [NewWire(y), Fill(n, 2, WireEnd(y, false))];
    LeadsOutput(b, n, 1);
    var b1 := b.(next := b.next + 1, free := b.free + {WireEnd(x, true)}, wires := b.wires + {x},
                 nodes := b.nodes[n := b.nodes[n].(slots := slots[1 := WireEnd(x, false)])]);
    LeadsOutput(b1, n, 2);
    var b2 := b1.(next := b1.next + 1, free := b1.free + {WireEnd(y, true)}, wires := b1.wires + {y},
                  nodes := b1.nodes[n := b1.nodes[n].(slots := b1.nodes[n].slots[2 := WireEnd(y, false)])]);
    LeadsConcat(b, s1, b1, s2, b2);
    LeadsOne(b2, Finish(n));
    LeadsConcat(b, s1 + s2, b2, [Finish(n)], Perform(b2, Finish(n)));
    assert s1 + s2 + [Finish(n)]
        == [NewWire(x), Fill(n, 1, WireEnd(x, false)), NewWire(y), Fill(n, 2, WireEnd(y, false)), Finish(n)];
    assert b2.nodes == AfterOutputs(b, n, slots).nodes;
  }

  function WithBinary(b: Build, ctor: Ctor, target: End, other: End): Build {
    var n, x := NodeId(b.makers, b.next), Wire(b.makers, b.next + 1);
    b.(next := b.next + 2, free := b.free - {target, other} + {WireEnd(x, true)},
       links := Link(b.links, Principal(n), target), wires := b.wires + {x},
       nodes := b.nodes[n := Node(ctor, map[0 := Principal(n), 1 := other, 2 := WireEnd(x, false)])])
  }

  lemma LeadsBinary(b: Build, ctor: Ctor, target: End, other: End)
    requires NamesLeft(b) && Binary(ctor)
    requires target in b.free && other in b.free && target != other && other.WireEnd?
    ensures Leads(b, BinaryBlock(ctor, b.makers, b.next, target, other), WithBinary(b, ctor, target, other))
    ensures NamesLeft(WithBinary(b, ctor, target, other))
  {
    hide Leads;
    var n, x := NodeId(b.makers, b.next), Wire(b.makers, b.next + 1);
    var a0, a1 := Begin(n, ctor), Fill(n, 1, other);
    var b1 := Perform(b, a0);
    LeadsOne(b, a0);
    var b2 := Perform(b1, a1);
    LeadsOne(b1, a1);
    LeadsConcat(b, [a0], b1, [a1], b2);
    var s1 := [Fill(n, 0, Principal(n)), Join(Principal(n), target)];
    LeadsTarget(b2, n, target);
    var b3 := b2.(free := b2.free - {Principal(n), target}, links := Link(b2.links, Principal(n), target),
                  nodes := b2.nodes[n := b2.nodes[n].(slots := b2.nodes[n].slots[0 := Principal(n)])]);
    LeadsConcat(b, [a0] + [a1], b2, s1, b3);
    BinaryRest(b, ctor, target, other, b3, [a0] + [a1] + s1);
    var s2 := [NewWire(x), Fill(n, 2, WireEnd(x, false)), Finish(n)];
    assert [a0] + [a1] + s1 + s2 == BinaryBlock(ctor, b.makers, b.next, target, other);
  }

  lemma BinaryRest(b: Build, ctor: Ctor, target: End, other: End, b3: Build, s: seq<Action>)
    requires NamesLeft(b) && Binary(ctor)
    requires target in b.free && other in b.free && target != other && other.WireEnd?
    requires var n := NodeId(b.makers, b.next);
             b3 == b.(next := b.next + 1, open := {n},
                      free := b.free + {Principal(n)} - {other} - {Principal(n), target},
                      links := Link(b.links, Principal(n), target),
                      nodes := b.nodes[n := Node(ctor, map[])][n := Node(ctor, map[][1 := other])]
                               [n := Node(ctor, map[][1 := other][0 := Principal(n)])])
    requires Leads(b, s, b3)
    ensures var n, x := NodeId(b.makers, b.next), Wire(b.makers, b.next + 1);
            Leads(b, s + [NewWire(x), Fill(n, 2, WireEnd(x, false)), Finish(n)], WithBinary(b, ctor, target, other))
  {
    hide Leads;
    var n, x := NodeId(b.makers, b.next), Wire(b.makers, b.next + 1);
    var s2 := [NewWire(x), Fill(n, 2, WireEnd(x, false))];
    LeadsOutput(b3, n, 2);
    var b4 := b3.(next := b3.next + 1, free := b3.free + {WireEnd(x, true)}, wires := b3.wires + {x},
                  nodes := b3.nodes[n := b3.nodes[n].(slots := b3.nodes[n].slots[2 := WireEnd(x, false)])]);
    LeadsConcat(b, s, b3, s2, b4);
    LeadsOne(b4, Finish(n));
    LeadsConcat(b, s + s2, b4, [Finish(n)], Perform(b4, Finish(n)));
    assert s + s2 + [Finish(n)] == s + [NewWire(x), Fill(n, 2, WireEnd(x, false)), Finish(n)];
    assert b4.nodes[n].slots == WithBinary(b, ctor, target, other).nodes[n].slots;
    assert b4.nodes == WithBinary(b, ctor, target, other).nodes;
    assert b4.free == WithBinary(b, ctor, target, other).free;
  }

  // ----- The effect of each rule -----

  // The body of a rule leads from the given ends to `c`, and `c` leaves nothing in hand.
  lemma RuleEffect(sys: System, rule: Rule, m: set<NodeId>, ins: seq<End>, w: World, c: Build)
    requires rule.body < |sys.program| && Result(Call(sys.program, rule.body, Before(m, ins))) == Some(w)
    requires w.stack == [] && Leads(Start(m, EndSet(ins)), w.script, c) && c.free == {} && c.open == {}
    ensures BodyOk(sys, rule, m, ins) && Effect(sys, rule, m, ins) == c
  {
  }

  lemma CallMeans(f: nat, texts: seq<string>, m: set<NodeId>, ins: seq<End>, w: World)
    requires f < |Source()| && Source()[f] == Body(texts) && f < |Program()|
    requires CompiledFrom(Source(), Program())
    requires Standing(f, texts, 0, map[], Before(m, ins)) == Some(w)
    ensures Result(Call(Program(), f, Before(m, ins))) == Some(w)
  {
    hide Source, Program;
    assert Words(texts)[0..] == Words(texts);
    CallAgrees(Source(), Program(), f, Before(m, ins));
  }

  function ZeroAddEffect(m: set<NodeId>, a: End, r: End): Build {
    Build(m, 0, {}, map[], {}, Link(map[], a, r), {})
  }

  lemma LeadsZeroAdd(m: set<NodeId>, a: End, r: End)
    requires Inputs(m, [a, r])
    ensures Leads(Start(m, {a, r}), ZeroAddScript(m, a, r), ZeroAddEffect(m, a, r))
  {
    assert [a, r][0] != [a, r][1] && a in [a, r] && r in [a, r];
    LeadsJoin(Start(m, {a, r}), a, r);
  }

  function Add1AddEffect(m: set<NodeId>, p: End, a: End, r: End): Build {
    var n, n', x := NodeId(m, 0), NodeId(m, 2), Wire(m, 1);
    Build(m, 3, {},
          map[n := Node(ADD, map[0 := Principal(n), 1 := a, 2 := WireEnd(x, false)]),
              n' := Node(ADD1, map[0 := WireEnd(x, true), 1 := Principal(n')])],
          {}, Link(Link(map[], Principal(n), p), Principal(n'), r), {x})
  }

  lemma LeadsAdd1Add(m: set<NodeId>, p: End, a: End, r: End)
    requires Inputs(m, [p, a, r])
    ensures Leads(Start(m, {p, a, r}), Add1AddScript(m, p, a, r), Add1AddEffect(m, p, a, r))
  {
    hide Leads;
    var ins := [p, a, r];
    assert ins[0] != ins[1] && ins[1] != ins[2] && ins[0] != ins[2] && p in ins && a in ins && r in ins;
    var b0, x, n := Start(m, {p, a, r}), WireEnd(Wire(m, 1), true), Principal(NodeId(m, 2));
    LeadsBinary(b0, ADD, p, a);
    var b1 := WithBinary(b0, ADD, p, a);
    LeadsAdd1(b1, x);
    var b2 := WithAdd1(b1, x);
    var s1, s2 := BinaryBlock(ADD, m, 0, p, a), Add1Block(m, 2, x);
    LeadsConcat(b0, s1, b1, s2, b2);
    LeadsJoin(b2, n, r);
    var b3 := b2.(free := b2.free - {n, r}, links := Link(b2.links, n, r));
    LeadsConcat(b0, s1 + s2, b2, [Join(n, r)], b3);
    assert b3.free == {} && b3.wires == {Wire(m, 1)};
    assert b3.nodes == Add1AddEffect(m, p, a, r).nodes;
  }

  function EraseNode(n: NodeId): Node { Node(ERASE, map[0 := Principal(n)]) }

  function ZeroNode(n: NodeId): Node { Node(ZERO, map[0 := Principal(n)]) }

  function Add1Node(n: NodeId, prev: End): Node { Node(ADD1, map[0 := prev, 1 := Principal(n)]) }

  function DupNode(n: NodeId, first: End, second: End): Node {
    Node(DUP, map[0 := Principal(n), 1 := first, 2 := second])
  }

  function BinaryNode(ctor: Ctor, n: NodeId, other: End, result: End): Node {
    Node(ctor, map[0 := Principal(n), 1 := other, 2 := result])
  }

  function Add1EraseEffect(m: set<NodeId>, p: End): Build {
    var n := NodeId(m, 0);
    Build(m, 1, {}, map[n := EraseNode(n)], {}, Link(map[], Principal(n), p), {})
  }

  lemma LeadsAdd1Erase(m: set<NodeId>, p: End)
    requires Inputs(m, [p])
    ensures Leads(Start(m, {p}), EraseBlock(m, 0, p), Add1EraseEffect(m, p))
  {
    hide Leads;
    assert p in [p];
    LeadsErase(Start(m, {p}), p);
    assert WithErase(Start(m, {p}), p) == Add1EraseEffect(m, p);
  }

  function ZeroDupEffect(m: set<NodeId>, f: End, s: End): Build {
    var n, n' := NodeId(m, 0), NodeId(m, 1);
    Build(m, 2, {}, map[n := ZeroNode(n), n' := ZeroNode(n')], {},
          Link(Link(map[], Principal(n), f), Principal(n'), s), {})
  }

  lemma LeadsZeroDup(m: set<NodeId>, f: End, s: End)
    requires Inputs(m, [f, s])
    ensures Leads(Start(m, {f, s}), ZeroDupScript(m, f, s), ZeroDupEffect(m, f, s))
  {
    hide Leads;
    var ins := [f, s];
    assert ins[0] != ins[1] && f in ins && s in ins;
    var b0, n, n' := Start(m, {f, s}), Principal(NodeId(m, 0)), Principal(NodeId(m, 1));
    LeadsZero(b0);
    var b1 := WithZero(b0);
    LeadsJoin(b1, n, f);
    var b2 := b1.(free := b1.free - {n, f}, links := Link(b1.links, n, f));
    LeadsConcat(b0, ZeroBlock(m, 0), b1, [Join(n, f)], b2);
    LeadsZero(b2);
    var b3 := WithZero(b2);
    LeadsConcat(b0, ZeroBlock(m, 0) + [Join(n, f)], b2, ZeroBlock(m, 1), b3);
    LeadsJoin(b3, n', s);
    var b4 := b3.(free := b3.free - {n', s}, links := Link(b3.links, n', s));
    LeadsConcat(b0, ZeroBlock(m, 0) + [Join(n, f)] + ZeroBlock(m, 1), b3, [Join(n', s)], b4);
    assert b4.free == {} && b4.nodes == ZeroDupEffect(m, f, s).nodes;
  }

  function Add1DupEffect(m: set<NodeId>, p: End, f: End, s: End): Build {
    var n0, n3, n4, x, y := NodeId(m, 0), NodeId(m, 3), NodeId(m, 4), Wire(m, 1), Wire(m, 2);
    Build(m, 5, {},
          map[n0 := DupNode(n0, WireEnd(x, false), WireEnd(y, false)),
              n3 := Add1Node(n3, WireEnd(y, true)), n4 := Add1Node(n4, WireEnd(x, true))],
          {}, Link(Link(Link(map[], Principal(n0), p), Principal(n3), s), Principal(n4), f), {x, y})
  }

  // After the first new add1 has been connected.
  function Add1DupMiddle(m: set<NodeId>, p: End, f: End, s: End): Build {
    var n0, n3, x, y := NodeId(m, 0), NodeId(m, 3), Wire(m, 1), Wire(m, 2);
    Build(m, 4, {f, WireEnd(x, true)},
          map[n0 := DupNode(n0, WireEnd(x, false), WireEnd(y, false)), n3 := Add1Node(n3, WireEnd(y, true))],
          {}, Link(Link(map[], Principal(n0), p), Principal(n3), s), {x, y})
  }

  lemma LeadsDupMiddle(m: set<NodeId>, p: End, f: End, s: End)
    requires Inputs(m, [p, f, s])
    ensures Leads(Start(m, {p, f, s}),
                  DupBlock(m, 0, p) + Add1Block(m, 3, WireEnd(Wire(m, 2), true)) + [Join(Principal(NodeId(m, 3)), s)],
                  Add1DupMiddle(m, p, f, s))
    ensures NamesLeft(Add1DupMiddle(m, p, f, s))
  {
    hide Leads;
    var ins := [p, f, s];
    assert ins[0] != ins[1] && ins[1] != ins[2] && ins[0] != ins[2] && p in ins && f in ins && s in ins;
    var y, n3 := WireEnd(Wire(m, 2), true), Principal(NodeId(m, 3));
    var b0 := Start(m, {p, f, s});
    LeadsDup(b0, p);
    var b1 := WithDup(b0, p);
    LeadsAdd1(b1, y);
    var b2 := WithAdd1(b1, y);
    LeadsConcat(b0, DupBlock(m, 0, p), b1, Add1Block(m, 3, y), b2);
    LeadsJoin(b2, n3, s);
    var b3 := b2.(free := b2.free - {n3, s}, links := Link(b2.links, n3, s));
    LeadsConcat(b0, DupBlock(m, 0, p) + Add1Block(m, 3, y), b2, [Join(n3, s)], b3);
    assert b3.free == {f, WireEnd(Wire(m, 1), true)} && b3.wires == Add1DupMiddle(m, p, f, s).wires;
    assert b3 == Add1DupMiddle(m, p, f, s);
  }

  lemma LeadsAdd1Dup(m: set<NodeId>, p: End, f: End, s: End)
    requires Inputs(m, [p, f, s])
    ensures Leads(Start(m, {p, f, s}), Add1DupScript(m, p, f, s), Add1DupEffect(m, p, f, s))
  {
    hide Leads;
    LeadsDupMiddle(m, p, f, s);
    assert f in [p, f, s];
    var x, n4 := WireEnd(Wire(m, 1), true), Principal(NodeId(m, 4));
    var b0, b3 := Start(m, {p, f, s}), Add1DupMiddle(m, p, f, s);
    var s3 := DupBlock(m, 0, p) + Add1Block(m, 3, WireEnd(Wire(m, 2), true)) + [Join(Principal(NodeId(m, 3)), s)];
    LeadsAdd1(b3, x);
    var b4 := WithAdd1(b3, x);
    LeadsConcat(b0, s3, b3, Add1Block(m, 4, x), b4);
    LeadsJoin(b4, n4, f);
    var b5 := b4.(free := b4.free - {n4, f}, links := Link(b4.links, n4, f));
    LeadsConcat(b0, s3 + Add1Block(m, 4, x), b4, [Join(n4, f)], b5);
    assert b5.free == {} && b5 == Add1DupEffect(m, p, f, s);
  }

  function ZeroMulEffect(m: set<NodeId>, a: End, r: End): Build {
    var n, n' := NodeId(m, 0), NodeId(m, 1);
    Build(m, 2, {}, map[n := EraseNode(n), n' := ZeroNode(n')], {},
          Link(Link(map[], Principal(n), a), Principal(n'), r), {})
  }

  lemma LeadsZeroMul(m: set<NodeId>, a: End, r: End)
    requires Inputs(m, [a, r])
    ensures Leads(Start(m, {a, r}), ZeroMulScript(m, a, r), ZeroMulEffect(m, a, r))
  {
    hide Leads;
    var ins := [a, r];
    assert ins[0] != ins[1] && a in ins && r in ins;
    var b0, n' := Start(m, {a, r}), Principal(NodeId(m, 1));
    LeadsErase(b0, a);
    var b1 := WithErase(b0, a);
    LeadsZero(b1);
    var b2 := WithZero(b1);
    LeadsConcat(b0, EraseBlock(m, 0, a), b1, ZeroBlock(m, 1), b2);
    LeadsJoin(b2, n', r);
    var b3 := b2.(free := b2.free - {n', r}, links := Link(b2.links, n', r));
    LeadsConcat(b0, EraseBlock(m, 0, a) + ZeroBlock(m, 1), b2, [Join(n', r)], b3);
    assert b3.free == {} && b3.nodes == ZeroMulEffect(m, a, r).nodes;
  }

  function Add1MulEffect(m: set<NodeId>, p: End, a: End, r: End): Build {
    var n0, n3, n5 := NodeId(m, 0), NodeId(m, 3), NodeId(m, 5);
    var x, y, u, v := Wire(m, 1), Wire(m, 2), Wire(m, 4), Wire(m, 6);
    Build(m, 7, {},
          map[n0 := DupNode(n0, WireEnd(x, false), WireEnd(y, false)),
              n3 := BinaryNode(MUL, n3, p, WireEnd(u, false)),
              n5 := BinaryNode(ADD, n5, WireEnd(x, true), WireEnd(v, false))],
          {},
          Link(Link(Link(Link(map[], Principal(n0), a), Principal(n3), WireEnd(y, true)),
                    Principal(n5), WireEnd(u, true)), WireEnd(v, true), r),
          {x, y, u, v})
  }

  // The copier and the next `mul`.
  lemma LeadsMulFront(m: set<NodeId>, p: End, a: End, r: End) returns (b2: Build)
    requires Inputs(m, [p, a, r])
    ensures var x, y := WireEnd(Wire(m, 1), true), WireEnd(Wire(m, 2), true);
            && Leads(Start(m, {p, a, r}), DupBlock(m, 0, a) + BinaryBlock(MUL, m, 3, y, p), b2) && NamesLeft(b2)
            && b2 == WithBinary(WithDup(Start(m, {p, a, r}), a), MUL, y, p)
            && b2.free == {r, x, WireEnd(Wire(m, 4), true)} && r != x && r != WireEnd(Wire(m, 4), true)
                && r != WireEnd(Wire(m, 6), true)
  {
    hide Leads;
    var ins := [p, a, r];
    assert ins[0] != ins[1] && ins[1] != ins[2] && ins[0] != ins[2] && p in ins && a in ins && r in ins;
    var x, y := WireEnd(Wire(m, 1), true), WireEnd(Wire(m, 2), true);
    var b0 := Start(m, {p, a, r});
    LeadsDup(b0, a);
    var b1 := WithDup(b0, a);
    assert b1.free == {p, r, x, y};
    LeadsBinary(b1, MUL, y, p);
    b2 := WithBinary(b1, MUL, y, p);
    LeadsConcat(b0, DupBlock(m, 0, a), b1, BinaryBlock(MUL, m, 3, y, p), b2);
  }

  lemma LeadsAdd1Mul(m: set<NodeId>, p: End, a: End, r: End)
    requires Inputs(m, [p, a, r])
    ensures Leads(Start(m, {p, a, r}), Add1MulScript(m, p, a, r), Add1MulEffect(m, p, a, r))
  {
    hide Leads, NamesLeft, Inputs;
    var x, u, v := WireEnd(Wire(m, 1), true), WireEnd(Wire(m, 4), true), WireEnd(Wire(m, 6), true);
    var b0, front := Start(m, {p, a, r}), DupBlock(m, 0, a) + BinaryBlock(MUL, m, 3, WireEnd(Wire(m, 2), true), p);
    var b2 := LeadsMulFront(m, p, a, r);
    LeadsBinary(b2, ADD, u, x);
    var b3 := WithBinary(b2, ADD, u, x);
    LeadsConcat(b0, front, b2, BinaryBlock(ADD, m, 5, u, x), b3);
    assert b3.free == {r, v};
    LeadsJoin(b3, v, r);
    var b4 := b3.(free := b3.free - {v, r}, links := Link(b3.links, v, r));
    LeadsConcat(b0, front + BinaryBlock(ADD, m, 5, u, x), b3, [Join(v, r)], b4);
    assert front + BinaryBlock(ADD, m, 5, u, x) + [Join(v, r)] == Add1MulScript(m, p, a, r);
    MulBuilt(m, p, a, r, b4);
  }

  lemma MulBuilt(m: set<NodeId>, p: End, a: End, r: End, b: Build)
    requires var x, y := WireEnd(Wire(m, 1), true), WireEnd(Wire(m, 2), true);
             var u, v := WireEnd(Wire(m, 4), true), WireEnd(Wire(m, 6), true);
             var b3 := WithBinary(WithBinary(WithDup(Start(m, {p, a, r}), a), MUL, y, p), ADD, u, x);
             b3.free == {r, v} && b == b3.(free := b3.free - {v, r}, links := Link(b3.links, v, r))
    ensures b == Add1MulEffect(m, p, a, r)
  {
    assert b.free == {} && b.wires == Add1MulEffect(m, p, a, r).wires;
    assert b.nodes == Add1MulEffect(m, p, a, r).nodes;
  }
}
