/**
 The rules for natural numbers of examples/datatypes/nat.fth: `add`, `nat-erase`, `nat-dup` and `mul`.
 Their bodies are given as tokens; what they do to a net is worked out from the interpreter.
 */
module NatRules {
  import opened Links
  import opened Script
  import opened Machine
  import opened Execution
  import opened Compiler
  import opened Net
  import opened Reading

  const ZERO := Ctor("zero", [], [true])
  const ADD1 := Ctor("add1", [false], [true])
  const ADD := Ctor("add", [true, false], [false])
  const ERASE := Ctor("nat-erase", [true], [])
  const DUP := Ctor("nat-dup", [true], [false, false])
  const MUL := Ctor("mul", [true, false], [false])

  const NAMES: Names := map[
    "zero" := CtorValue(ZERO), "add1" := CtorValue(ADD1), "add" := CtorValue(ADD),
    "nat-erase" := CtorValue(ERASE), "nat-dup" := CtorValue(DUP), "mul" := CtorValue(MUL),
    "connect" := PrimValue(ConnectP), "swap" := PrimValue(SwapP)]

  const ZERO_ADD := ["(", "addend", "result", ")", "addend", "result", "connect", "end"]
  const ADD1_ADD := ["(", "addend", "result", ")", "(", "prev", ")",
                     "prev", "addend", "add", "add1", "result", "connect", "end"]
  const ZERO_ERASE := ["end"]
  const ADD1_ERASE := ["(", "prev", ")", "prev", "nat-erase", "end"]
  const ZERO_DUP := ["(", "first", "second", ")", "zero", "first", "connect", "zero", "second", "connect", "end"]
  const ADD1_DUP := ["(", "first", "second", ")", "(", "prev", ")", "prev", "nat-dup",
                     "(", "prev-first", "prev-second", ")",
                     "prev-second", "add1", "second", "connect", "prev-first", "add1", "first", "connect", "end"]
  const ZERO_MUL := ["(", "mulend", "result", ")", "mulend", "nat-erase", "zero", "result", "connect", "end"]
  const ADD1_MUL := ["(", "mulend", "result", ")", "(", "prev", ")", "mulend", "nat-dup",
                     "(", "mulend-first", "mulend-second", ")", "prev", "mulend-second", "swap", "mul",
                     "mulend-first", "add", "result", "connect", "end"]

  function Source(): seq<Definition> {
    [Body(ZERO_ADD), Body(ADD1_ADD), Body(ZERO_ERASE), Body(ADD1_ERASE),
     Body(ZERO_DUP), Body(ADD1_DUP), Body(ZERO_MUL), Body(ADD1_MUL)]
  }

  function Body(texts: seq<string>): Definition {
    Definition(NAMES, Words(texts))
  }

  function Rules(): seq<Rule> {
    [Rule(ZERO, ADD, 0), Rule(ADD1, ADD, 1), Rule(ZERO, ERASE, 2), Rule(ADD1, ERASE, 3),
     Rule(ZERO, DUP, 4), Rule(ADD1, DUP, 5), Rule(ZERO, MUL, 6), Rule(ADD1, MUL, 7)]
  }

  // ----- One word at a time -----

  // The interpreter standing at the i-th word of a body.
  function Standing(bound: nat, texts: seq<string>, i: nat, env: Names, w: World): Option<World>
    requires i <= |texts|
  {
    Ahead(Source(), bound, NAMES, texts, i, env, w)
  }

  lemma AtEnd(bound: nat, texts: seq<string>, i: nat, env: Names, w: World)
    requires i < |texts| && texts[i] == "end"
    ensures Standing(bound, texts, i, env, w) == Some(w)
  {
    ReadEnd(Source(), bound, NAMES, texts, i, env, w);
  }

  lemma AtLocal(bound: nat, texts: seq<string>, i: nat, env: Names, w: World, v: Value)
    requires i < |texts| && texts[i] != "end" && texts[i] != "(" && texts[i] in env && env[texts[i]] == v
    ensures Standing(bound, texts, i, env, w) == Standing(bound, texts, i + 1, env, w.(stack := w.stack + [v]))
  {
    ReadLocal(Source(), bound, NAMES, texts, i, env, w, v);
  }

  lemma AtWord(bound: nat, texts: seq<string>, i: nat, env: Names, w: World, value: Value, w': World)
    requires i < |texts| && texts[i] != "end" && texts[i] != "(" && texts[i] !in env
    requires texts[i] in NAMES && NAMES[texts[i]] == value
    requires Word(Source(), bound, w, value) == Some(w')
    ensures Standing(bound, texts, i, env, w) == Standing(bound, texts, i + 1, env, w')
  {
    ReadWord(Source(), bound, NAMES, texts, i, env, w, value, w');
  }

  lemma AtBind1(bound: nat, texts: seq<string>, i: nat, env: Names, w: World, base: seq<Value>, x: Value)
    requires i + 2 < |texts| && texts[i] == "(" && texts[i + 2] == ")" && texts[i + 1] != ")"
    requires w.stack == base + [x]
    ensures Standing(bound, texts, i, env, w)
              == Standing(bound, texts, i + 3, env[texts[i + 1] := x], w.(stack := base))
  {
    ReadBind1(Source(), bound, NAMES, texts, i, env, w, base, x);
  }

  lemma AtBind2(bound: nat, texts: seq<string>, i: nat, env: Names, w: World, base: seq<Value>, x: Value, y: Value)
    requires i + 3 < |texts| && texts[i] == "(" && texts[i + 3] == ")" && texts[i + 1] != ")" && texts[i + 2] != ")"
    requires w.stack == base + [x, y]
    ensures Standing(bound, texts, i, env, w)
         == Standing(bound, texts, i + 4, env[texts[i + 2] := y][texts[i + 1] := x], w.(stack := base))
  {
    ReadBind2(Source(), bound, NAMES, texts, i, env, w, base, x, y);
  }

  // ----- What making one agent does -----

  function ZeroBlock(m: set<NodeId>, k: nat): seq<Action> {
    var n := NodeId(m, k);
    [Begin(n, ZERO), Fill(n, 0, Principal(n)), Finish(n)]
  }

  lemma NewZero(w: World)
    ensures NewNode(w, ZERO)
         == Some(World(w.makers, w.next + 1, w.stack + [Ref(Principal(NodeId(w.makers, w.next)))],
                       w.script + ZeroBlock(w.makers, w.next)))
  {
    var n := NodeId(w.makers, w.next);
    var w1 := w.(next := w.next + 1).Log(Begin(n, ZERO));
    assert ReconnectInputs(w1, n, ZERO, 0) == Some(w1);
    var w2 := ReconnectOutput(w1, n, ZERO, 0);
    assert ReconnectOutputs(w1, n, ZERO, 0) == ReconnectOutputs(w2, n, ZERO, 1) == w2;
    assert w2.script + [Finish(n)] == w.script + ZeroBlock(w.makers, w.next);
  }

  function Add1Block(m: set<NodeId>, k: nat, e: End): seq<Action> {
    var n := NodeId(m, k);
    [Begin(n, ADD1), Fill(n, 0, e), Fill(n, 1, Principal(n)), Finish(n)]
  }

  lemma NewAdd1(w: World, base: seq<Value>, e: End)
    requires w.stack == base + [Ref(e)] && e.WireEnd?
    ensures NewNode(w, ADD1)
         == Some(World(w.makers, w.next + 1, base + [Ref(Principal(NodeId(w.makers, w.next)))],
                       w.script + Add1Block(w.makers, w.next, e)))
  {
    var n := NodeId(w.makers, w.next);
    var w1 := w.(next := w.next + 1).Log(Begin(n, ADD1));
    PushPop(w1, base, Ref(e));
    var w2 := ReconnectInput(w1.Pop(), n, ADD1, 0, e);
    assert ReconnectInputs(w1, n, ADD1, 1) == ReconnectInputs(w2, n, ADD1, 0) == Some(w2);
    var w3 := ReconnectOutput(w2, n, ADD1, 1);
    assert ReconnectOutputs(w2, n, ADD1, 1) == ReconnectOutputs(w3, n, ADD1, 2) == w3;
    assert w3.script + [Finish(n)] == w.script + Add1Block(w.makers, w.next, e);
  }

  function EraseBlock(m: set<NodeId>, k: nat, e: End): seq<Action> {
    var n := NodeId(m, k);
    [Begin(n, ERASE), Fill(n, 0, Principal(n)), Join(Principal(n), e), Finish(n)]
  }

  lemma NewErase(w: World, base: seq<Value>, e: End)
    requires w.stack == base + [Ref(e)]
    ensures NewNode(w, ERASE)
         == Some(World(w.makers, w.next + 1, base, w.script + EraseBlock(w.makers, w.next, e)))
  {
    var n := NodeId(w.makers, w.next);
    var w1 := w.(next := w.next + 1).Log(Begin(n, ERASE));
    PushPop(w1, base, Ref(e));
    var w2 := ReconnectInput(w1.Pop(), n, ERASE, 0, e);
    assert ReconnectInputs(w1, n, ERASE, 1) == ReconnectInputs(w2, n, ERASE, 0) == Some(w2);
    assert ReconnectOutputs(w2, n, ERASE, 1) == w2;
    assert w2.script + [Finish(n)] == w.script + EraseBlock(w.makers, w.next, e);
  }

  function DupBlock(m: set<NodeId>, k: nat, e: End): seq<Action> {
    var n, x, y := NodeId(m, k), Wire(m, k + 1), Wire(m, k + 2);
    [Begin(n, DUP), Fill(n, 0, Principal(n)), Join(Principal(n), e),
     NewWire(x), Fill(n, 1, WireEnd(x, false)), NewWire(y), Fill(n, 2, WireEnd(y, false)), Finish(n)]
  }

  lemma NewDup(w: World, base: seq<Value>, e: End)
    requires w.stack == base + [Ref(e)]
    ensures NewNode(w, DUP)
         == Some(World(w.makers, w.next + 3,
                       base + [Ref(WireEnd(Wire(w.makers, w.next + 1), true)),
                               Ref(WireEnd(Wire(w.makers, w.next + 2), true))],
                       w.script + DupBlock(w.makers, w.next, e)))
  {
    var n := NodeId(w.makers, w.next);
    var w1 := w.(next := w.next + 1).Log(Begin(n, DUP));
    PushPop(w1, base, Ref(e));
    var w2 := ReconnectInput(w1.Pop(), n, DUP, 0, e);
    assert ReconnectInputs(w1, n, DUP, 1) == ReconnectInputs(w2, n, DUP, 0) == Some(w2);
    var w3 := ReconnectOutput(w2, n, DUP, 1);
    var w4 := ReconnectOutput(w3, n, DUP, 2);
    assert ReconnectOutputs(w2, n, DUP, 1) == ReconnectOutputs(w3, n, DUP, 2) == ReconnectOutputs(w4, n, DUP, 3) == w4;
    assert w4.script + [Finish(n)] == w.script + DupBlock(w.makers, w.next, e);
    assert w4.stack == base + [Ref(WireEnd(Wire(w.makers, w.next + 1), true)),
                               Ref(WireEnd(Wire(w.makers, w.next + 2), true))];
  }

  // `add` and `mul` have ports of the same kinds.
  predicate Binary(ctor: Ctor) {
    ctor.inputs == [true, false] && ctor.outputs == [false]
  }

  function BinaryBlock(ctor: Ctor, m: set<NodeId>, k: nat, target: End, other: End): seq<Action> {
    var n, x := NodeId(m, k), Wire(m, k + 1);
    [Begin(n, ctor), Fill(n, 1, other), Fill(n, 0, Principal(n)), Join(Principal(n), target),
     NewWire(x), Fill(n, 2, WireEnd(x, false)), Finish(n)]
  }

  lemma NewBinary(ctor: Ctor, w: World, base: seq<Value>, target: End, other: End)
    requires Binary(ctor) && w.stack == base + [Ref(target), Ref(other)] && other.WireEnd?
    ensures NewNode(w, ctor)
         == Some(World(w.makers, w.next + 2, base + [Ref(WireEnd(Wire(w.makers, w.next + 1), true))],
                       w.script + BinaryBlock(ctor, w.makers, w.next, target, other)))
  {
    var n := NodeId(w.makers, w.next);
    var w1 := w.(next := w.next + 1).Log(Begin(n, ctor));
    assert w1.stack == base + [Ref(target)] + [Ref(other)];
    PushPop(w1, base + [Ref(target)], Ref(other));
    var w2 := ReconnectInput(w1.Pop(), n, ctor, 1, other);
    PushPop(w2, base, Ref(target));
    var w3 := ReconnectInput(w2.Pop(), n, ctor, 0, target);
    assert ReconnectInputs(w1, n, ctor, 2) == ReconnectInputs(w2, n, ctor, 1)
        == ReconnectInputs(w3, n, ctor, 0) == Some(w3);
    var w4 := ReconnectOutput(w3, n, ctor, 2);
    assert ReconnectOutputs(w3, n, ctor, 2) == ReconnectOutputs(w4, n, ctor, 3) == w4;
    assert w4.script + [Finish(n)] == w.script + BinaryBlock(ctor, w.makers, w.next, target, other);
  }

  lemma Swaps(w: World, base: seq<Value>, x: Value, y: Value)
    requires w.stack == base + [x, y]
    ensures ApplyPrim(w, SwapP) == Some(w.(stack := base + [y, x]))
  {
    assert w.stack[..|w.stack| - 2] == base;
  }

  // ----- What each body does -----

  // A text that is neither punctuation nor one of `others`.
  predicate Plain(text: string, others: set<string>) {
    text != "(" && text != ")" && text != "end" && text !in others
  }

  predicate Means(text: string, env: Names, value: Value) {
    Plain(text, {}) && text !in env && text in NAMES && NAMES[text] == value
  }

  predicate Local(text: string, env: Names, v: Value) {
    Plain(text, {}) && text in env && env[text] == v
  }

  // Two locals connected; the agent on the stack connected to a local.
  lemma AtConnect(bound: nat, texts: seq<string>, i: nat, env: Names, w: World, l: End, r: End)
    requires i + 2 < |texts| && Means(texts[i + 2], env, PrimValue(ConnectP))
    requires Local(texts[i], env, Ref(l)) && Local(texts[i + 1], env, Ref(r))
    ensures Standing(bound, texts, i, env, w) == Standing(bound, texts, i + 3, env, w.Log(Join(l, r)))
  {
    hide Standing;
    AtLocal(bound, texts, i, env, w, Ref(l));
    var w1 := w.(stack := w.stack + [Ref(l)]);
    AtConnectTop(bound, texts, i + 1, env, w1, w.stack, l, r);
    assert w1.(stack := w.stack).Log(Join(l, r)) == w.Log(Join(l, r));
  }

  lemma AtConnectTop(bound: nat, texts: seq<string>, i: nat, env: Names, w: World, base: seq<Value>, l: End, r: End)
    requires i + 1 < |texts| && Means(texts[i + 1], env, PrimValue(ConnectP))
    requires Local(texts[i], env, Ref(r)) && w.stack == base + [Ref(l)]
    ensures Standing(bound, texts, i, env, w) == Standing(bound, texts, i + 2, env, w.(stack := base).Log(Join(l, r)))
  {
    hide Standing;
    AtLocal(bound, texts, i, env, w, Ref(r));
    var w1 := w.(stack := w.stack + [Ref(r)]);
    assert w1.stack == base + [Ref(l), Ref(r)];
    Connects(w1, base, l, r);
    AtWord(bound, texts, i + 1, env, w1, PrimValue(ConnectP), w1.(stack := base).Log(Join(l, r)));
  }

  lemma AtCtor(bound: nat, texts: seq<string>, i: nat, env: Names, w: World, ctor: Ctor, w': World)
    requires i < |texts| && Means(texts[i], env, CtorValue(ctor)) && NewNode(w, ctor) == Some(w')
    ensures Standing(bound, texts, i, env, w) == Standing(bound, texts, i + 1, env, w')
  {
    hide Standing;
    AtWord(bound, texts, i, env, w, CtorValue(ctor), w');
  }

  lemma AtSwap(bound: nat, texts: seq<string>, i: nat, env: Names, w: World, base: seq<Value>, x: Value, y: Value)
    requires i < |texts| && Means(texts[i], env, PrimValue(SwapP)) && w.stack == base + [x, y]
    ensures Standing(bound, texts, i, env, w) == Standing(bound, texts, i + 1, env, w.(stack := base + [y, x]))
  {
    hide Standing;
    Swaps(w, base, x, y);
    AtWord(bound, texts, i, env, w, PrimValue(SwapP), w.(stack := base + [y, x]));
  }

  lemma AtZero(bound: nat, texts: seq<string>, i: nat, env: Names, w: World)
    requires i < |texts| && Means(texts[i], env, CtorValue(ZERO))
    ensures Standing(bound, texts, i, env, w)
         == Standing(bound, texts, i + 1, env,
               World(w.makers, w.next + 1, w.stack + [Ref(Principal(NodeId(w.makers, w.next)))],
                     w.script + ZeroBlock(w.makers, w.next)))
  {
    hide Standing;
    NewZero(w);
    AtCtor(bound, texts, i, env, w, ZERO, NewNode(w, ZERO).value);
  }

  lemma AtAdd1(bound: nat, texts: seq<string>, i: nat, env: Names, w: World, base: seq<Value>, e: End)
    requires i < |texts| && Means(texts[i], env, CtorValue(ADD1)) && w.stack == base + [Ref(e)] && e.WireEnd?
    ensures Standing(bound, texts, i, env, w)
         == Standing(bound, texts, i + 1, env,
               World(w.makers, w.next + 1, base + [Ref(Principal(NodeId(w.makers, w.next)))],
                     w.script + Add1Block(w.makers, w.next, e)))
  {
    hide Standing;
    NewAdd1(w, base, e);
    AtCtor(bound, texts, i, env, w, ADD1, NewNode(w, ADD1).value);
  }

  lemma AtErase(bound: nat, texts: seq<string>, i: nat, env: Names, w: World, base: seq<Value>, e: End)
    requires i < |texts| && Means(texts[i], env, CtorValue(ERASE)) && w.stack == base + [Ref(e)]
    ensures Standing(bound, texts, i, env, w)
         == Standing(bound, texts, i + 1, env,
               World(w.makers, w.next + 1, base, w.script + EraseBlock(w.makers, w.next, e)))
  {
    hide Standing;
    NewErase(w, base, e);
    AtCtor(bound, texts, i, env, w, ERASE, NewNode(w, ERASE).value);
  }

  lemma AtDup(bound: nat, texts: seq<string>, i: nat, env: Names, w: World, base: seq<Value>, e: End)
    requires i < |texts| && Means(texts[i], env, CtorValue(DUP)) && w.stack == base + [Ref(e)]
    ensures Standing(bound, texts, i, env, w)
         == Standing(bound, texts, i + 1, env,
               World(w.makers, w.next + 3,
                     base + [Ref(WireEnd(Wire(w.makers, w.next + 1), true)),
                             Ref(WireEnd(Wire(w.makers, w.next + 2), true))],
                     w.script + DupBlock(w.makers, w.next, e)))
  {
    hide Standing;
    NewDup(w, base, e);
    AtCtor(bound, texts, i, env, w, DUP, NewNode(w, DUP).value);
  }

  lemma AtBinary(bound: nat, texts: seq<string>, i: nat, env: Names, w: World, base: seq<Value>,
                 ctor: Ctor, target: End, other: End)
    requires Binary(ctor) && i < |texts| && Means(texts[i], env, CtorValue(ctor))
    requires w.stack == base + [Ref(target), Ref(other)] && other.WireEnd?
    ensures Standing(bound, texts, i, env, w)
         == Standing(bound, texts, i + 1, env,
               World(w.makers, w.next + 2, base + [Ref(WireEnd(Wire(w.makers, w.next + 1), true))],
                     w.script + BinaryBlock(ctor, w.makers, w.next, target, other)))
  {
    hide Standing;
    NewBinary(ctor, w, base, target, other);
    AtCtor(bound, texts, i, env, w, ctor, NewNode(w, ctor).value);
  }

  // zero-add: the addend is the result.
  function ZeroAddScript(m: set<NodeId>, addend: End, result: End): seq<Action> {
    [Join(addend, result)]
  }

  lemma RunZeroAdd(texts: seq<string>, addend: string, result: string, connect: string,
                   m: set<NodeId>, a: End, r: End)
    requires texts == ["(", addend, result, ")", addend, result, connect, "end"]
    requires Plain(addend, {}) && Plain(result, {addend}) && Plain(connect, {addend, result})
    requires Means(connect, map[], PrimValue(ConnectP))
    ensures Standing(0, texts, 0, map[], Before(m, [a, r])) == Some(After(m, 0, ZeroAddScript(m, a, r)))
  {
    hide Standing;
    var w0, w1 := Before(m, [a, r]), World(m, 0, [], []);
    assert w0.stack == [] + [Ref(a), Ref(r)];
    AtBind2(0, texts, 0, map[], w0, [], Ref(a), Ref(r));
    assert w0.(stack := []) == w1;
    var env: Names := map[][result := Ref(r)][addend := Ref(a)];
    AtConnect(0, texts, 4, env, w1, a, r);
    AtEnd(0, texts, 7, env, w1.Log(Join(a, r)));
    assert w1.Log(Join(a, r)).script == ZeroAddScript(m, a, r);
  }

  // `( a b ) ( p )`
  lemma AtHeader(bound: nat, texts: seq<string>, m: set<NodeId>, p: End, x: End, y: End)
    requires |texts| > 7 && texts[0] == "(" && texts[3] == ")" && texts[4] == "(" && texts[6] == ")"
    requires texts[1] != ")" && texts[2] != ")" && texts[5] != ")"
    ensures Standing(bound, texts, 0, map[], Before(m, [p, x, y]))
         == Standing(bound, texts, 7, map[][texts[2] := Ref(y)][texts[1] := Ref(x)][texts[5] := Ref(p)],
                     World(m, 0, [], []))
  {
    hide Standing;
    var w0, w1 := Before(m, [p, x, y]), World(m, 0, [Ref(p)], []);
    assert w0.stack == [Ref(p)] + [Ref(x), Ref(y)];
    AtBind2(bound, texts, 0, map[], w0, [Ref(p)], Ref(x), Ref(y));
    assert w0.(stack := [Ref(p)]) == w1 && w1.stack == [] + [Ref(p)];
    AtBind1(bound, texts, 4, map[][texts[2] := Ref(y)][texts[1] := Ref(x)], w1, [], Ref(p));
    assert w1.(stack := []) == World(m, 0, [], []);
  }

  // `t nat-dup ( a b )`
  lemma AtDupHeader(bound: nat, texts: seq<string>, env: Names, m: set<NodeId>, e: End)
    requires |texts| > 13 && Local(texts[7], env, Ref(e)) && Means(texts[8], env, CtorValue(DUP))
    requires texts[9] == "(" && texts[12] == ")" && texts[10] != ")" && texts[11] != ")"
    ensures Standing(bound, texts, 7, env, World(m, 0, [], []))
         == Standing(bound, texts, 13,
              env[texts[11] := Ref(WireEnd(Wire(m, 2), true))][texts[10] := Ref(WireEnd(Wire(m, 1), true))],
               World(m, 3, [], DupBlock(m, 0, e)))
  {
    hide Standing;
    var x, y := Ref(WireEnd(Wire(m, 1), true)), Ref(WireEnd(Wire(m, 2), true));
    var w0 := World(m, 0, [], []);
    AtLocal(bound, texts, 7, env, w0, Ref(e));
    var w1 := w0.(stack := [] + [Ref(e)]);
    AtDup(bound, texts, 8, env, w1, [], e);
    var w2 := World(m, 3, [] + [x, y], [] + DupBlock(m, 0, e));
    AtBind2(bound, texts, 9, env, w2, [], x, y);
    assert w2.(stack := []) == World(m, 3, [], DupBlock(m, 0, e));
  }

  // add1-add: one more on top of the sum of the rest.
  function Add1AddScript(m: set<NodeId>, prev: End, addend: End, result: End): seq<Action> {
    BinaryBlock(ADD, m, 0, prev, addend) + Add1Block(m, 2, WireEnd(Wire(m, 1), true))
      + [Join(Principal(NodeId(m, 2)), result)]
  }

  lemma RunAdd1Add(texts: seq<string>, addend: string, result: string, prev: string, add: string, add1: string,
                   connect: string, m: set<NodeId>, p: End, a: End, r: End)
    requires texts == ["(", addend, result, ")", "(", prev, ")", prev, addend, add, add1, result, connect, "end"]
    requires Plain(addend, {}) && Plain(result, {addend}) && Plain(prev, {addend, result})
    requires Plain(add, {addend, result, prev}) && Means(add, map[], CtorValue(ADD))
    requires Plain(add1, {addend, result, prev}) && Means(add1, map[], CtorValue(ADD1))
    requires Plain(connect, {addend, result, prev}) && Means(connect, map[], PrimValue(ConnectP))
    requires a.WireEnd?
    ensures Standing(1, texts, 0, map[], Before(m, [p, a, r])) == Some(After(m, 3, Add1AddScript(m, p, a, r)))
  {
    hide Standing;
    AtHeader(1, texts, m, p, a, r);
    var env: Names := map[][result := Ref(r)][addend := Ref(a)][prev := Ref(p)];
    var w2 := World(m, 0, [], []);
    AtLocal(1, texts, 7, env, w2, Ref(p));
    var w3 := w2.(stack := [] + [Ref(p)]);
    AtLocal(1, texts, 8, env, w3, Ref(a));
    var w4 := w3.(stack := w3.stack + [Ref(a)]);
    assert w4.stack == [] + [Ref(p), Ref(a)];
    AtBinary(1, texts, 9, env, w4, [], ADD, p, a);
    var x := WireEnd(Wire(m, 1), true);
    var w5 := World(m, 2, [] + [Ref(x)], [] + BinaryBlock(ADD, m, 0, p, a));
    AtAdd1(1, texts, 10, env, w5, [], x);
    var n := Principal(NodeId(m, 2));
    var w6 := World(m, 3, [] + [Ref(n)], w5.script + Add1Block(m, 2, x));
    AtConnectTop(1, texts, 11, env, w6, [], n, r);
    var w7 := w6.(stack := []).Log(Join(n, r));
    AtEnd(1, texts, 13, env, w7);
    assert w7.script == Add1AddScript(m, p, a, r);
  }

  // add1-erase: erase the rest.
  lemma RunAdd1Erase(texts: seq<string>, prev: string, erase: string, m: set<NodeId>, p: End)
    requires texts == ["(", prev, ")", prev, erase, "end"]
    requires Plain(prev, {}) && Plain(erase, {prev}) && Means(erase, map[], CtorValue(ERASE))
    ensures Standing(3, texts, 0, map[], Before(m, [p])) == Some(After(m, 1, EraseBlock(m, 0, p)))
  {
    hide Standing;
    var w0, w1 := Before(m, [p]), World(m, 0, [], []);
    assert w0.stack == [] + [Ref(p)];
    AtBind1(3, texts, 0, map[], w0, [], Ref(p));
    assert w0.(stack := []) == w1;
    var env: Names := map[][prev := Ref(p)];
    AtLocal(3, texts, 3, env, w1, Ref(p));
    var w2 := w1.(stack := [] + [Ref(p)]);
    AtErase(3, texts, 4, env, w2, [], p);
    var w3 := World(m, 1, [], [] + EraseBlock(m, 0, p));
    AtEnd(3, texts, 5, env, w3);
    assert w3.script == EraseBlock(m, 0, p);
  }

  // zero-dup: two zeros.
  function ZeroDupScript(m: set<NodeId>, first: End, second: End): seq<Action> {
    ZeroBlock(m, 0) + [Join(Principal(NodeId(m, 0)), first)] + ZeroBlock(m, 1) + [Join(Principal(NodeId(m, 1)), second)]
  }

  lemma RunZeroDup(texts: seq<string>, first: string, second: string, zero: string, connect: string,
                   m: set<NodeId>, f: End, s: End)
    requires texts == ["(", first, second, ")", zero, first, connect, zero, second, connect, "end"]
    requires Plain(first, {}) && Plain(second, {first})
    requires Plain(zero, {first, second}) && Means(zero, map[], CtorValue(ZERO))
    requires Plain(connect, {first, second}) && Means(connect, map[], PrimValue(ConnectP))
    ensures Standing(4, texts, 0, map[], Before(m, [f, s])) == Some(After(m, 2, ZeroDupScript(m, f, s)))
  {
    hide Standing;
    var w0, w1 := Before(m, [f, s]), World(m, 0, [], []);
    assert w0.stack == [] + [Ref(f), Ref(s)];
    AtBind2(4, texts, 0, map[], w0, [], Ref(f), Ref(s));
    assert w0.(stack := []) == w1;
    var env: Names := map[][second := Ref(s)][first := Ref(f)];
    AtZero(4, texts, 4, env, w1);
    var n0, n1 := Principal(NodeId(m, 0)), Principal(NodeId(m, 1));
    var w2 := World(m, 1, [] + [Ref(n0)], [] + ZeroBlock(m, 0));
    AtConnectTop(4, texts, 5, env, w2, [], n0, f);
    var w3 := w2.(stack := []).Log(Join(n0, f));
    AtZero(4, texts, 7, env, w3);
    var w4 := World(m, 2, [] + [Ref(n1)], w3.script + ZeroBlock(m, 1));
    AtConnectTop(4, texts, 8, env, w4, [], n1, s);
    var w5 := w4.(stack := []).Log(Join(n1, s));
    AtEnd(4, texts, 10, env, w5);
    assert w5.script == ZeroDupScript(m, f, s);
  }

  // add1-dup: one more on top of each copy of the rest.
  function Add1DupScript(m: set<NodeId>, prev: End, first: End, second: End): seq<Action> {
    var x, y := WireEnd(Wire(m, 1), true), WireEnd(Wire(m, 2), true);
    DupBlock(m, 0, prev) + Add1Block(m, 3, y) + [Join(Principal(NodeId(m, 3)), second)]
      + Add1Block(m, 4, x) + [Join(Principal(NodeId(m, 4)), first)]
  }

  // What the names of add1-dup stand for after its two headers.
  function DupEnv(m: set<NodeId>, first: string, second: string, prev: string, pf: string, ps: string,
                  p: End, f: End, s: End): Names {
    Headed(second, first, prev, s, f, p)
      [ps := Ref(WireEnd(Wire(m, 2), true))][pf := Ref(WireEnd(Wire(m, 1), true))]
  }

  function Headed(last: string, first: string, prev: string, y: End, x: End, p: End): Names {
    map[][last := Ref(y)][first := Ref(x)][prev := Ref(p)]
  }

  lemma Add1DupNames(first: string, second: string, prev: string, pf: string, ps: string, add1: string,
                     connect: string, m: set<NodeId>, p: End, f: End, s: End)
    requires Plain(first, {}) && Plain(second, {first}) && Plain(prev, {first, second})
    requires Plain(pf, {first, second, prev}) && Plain(ps, {first, second, prev, pf})
    requires Plain(add1, {first, second, prev, pf, ps}) && Means(add1, map[], CtorValue(ADD1))
    requires Plain(connect, {first, second, prev, pf, ps}) && Means(connect, map[], PrimValue(ConnectP))
    ensures var env := DupEnv(m, first, second, prev, pf, ps, p, f, s);
            && Local(first, env, Ref(f)) && Local(second, env, Ref(s))
            && Local(pf, env, Ref(WireEnd(Wire(m, 1), true))) && Local(ps, env, Ref(WireEnd(Wire(m, 2), true)))
            && Means(add1, env, CtorValue(ADD1)) && Means(connect, env, PrimValue(ConnectP))
  {
  }

  lemma CopierNames(last: string, first: string, prev: string, dup: string, target: string,
                    y: End, x: End, p: End, e: End)
    requires Plain(first, {}) && Plain(last, {first}) && Plain(prev, {first, last})
    requires Plain(dup, {first, last, prev}) && Means(dup, map[], CtorValue(DUP))
    requires (target == prev && e == p) || (target == first && e == x)
    ensures var env := Headed(last, first, prev, y, x, p); Local(target, env, Ref(e)) && Means(dup, env, CtorValue(DUP))
  {
  }

  // `( first last ) ( prev ) target nat-dup ( pf ps )`
  lemma DupHeaders(bound: nat, texts: seq<string>, last: string, first: string, prev: string, target: string,
                   dup: string, pf: string, ps: string, m: set<NodeId>, p: End, x: End, y: End, e: End)
    requires |texts| > 13 && texts[0] == "(" && texts[1] == first && texts[2] == last && texts[3] == ")"
    requires texts[4] == "(" && texts[5] == prev && texts[6] == ")" && texts[7] == target && texts[8] == dup
    requires texts[9] == "(" && texts[10] == pf && texts[11] == ps && texts[12] == ")"
    requires Plain(first, {}) && Plain(last, {first}) && Plain(prev, {first, last})
    requires pf != ")" && ps != ")" && Plain(dup, {first, last, prev}) && Means(dup, map[], CtorValue(DUP))
    requires (target == prev && e == p) || (target == first && e == x)
    ensures Standing(bound, texts, 0, map[], Before(m, [p, x, y]))
         == Standing(bound, texts, 13, DupEnv(m, first, last, prev, pf, ps, p, x, y),
                     World(m, 3, [], DupBlock(m, 0, e)))
  {
    hide Standing, DupBlock, Local, Means;
    CopierNames(last, first, prev, dup, target, y, x, p, e);
    AtHeader(bound, texts, m, p, x, y);
    AtDupHeader(bound, texts, Headed(last, first, prev, y, x, p), m, e);
  }

  lemma HeadAdd1Dup(texts: seq<string>, first: string, second: string, prev: string, pf: string, ps: string,
                    dup: string, add1: string, connect: string, m: set<NodeId>, p: End, f: End, s: End)
    requires texts == ["(", first, second, ")", "(", prev, ")", prev, dup, "(", pf, ps, ")",
                       ps, add1, second, connect, pf, add1, first, connect, "end"]
    requires Plain(first, {}) && Plain(second, {first}) && Plain(prev, {first, second})
    requires pf != ")" && ps != ")" && Plain(dup, {first, second, prev}) && Means(dup, map[], CtorValue(DUP))
    ensures Standing(5, texts, 0, map[], Before(m, [p, f, s]))
         == Standing(5, texts, 13, DupEnv(m, first, second, prev, pf, ps, p, f, s), World(m, 3, [], DupBlock(m, 0, p)))
  {
    hide Standing, DupBlock, Means, DupEnv, Before;
    DupHeaders(5, texts, second, first, prev, prev, dup, pf, ps, m, p, f, s, p);
  }

  lemma RunAdd1Dup(texts: seq<string>, first: string, second: string, prev: string, pf: string, ps: string,
                   dup: string, add1: string, connect: string, m: set<NodeId>, p: End, f: End, s: End)
    requires texts == ["(", first, second, ")", "(", prev, ")", prev, dup, "(", pf, ps, ")",
                       ps, add1, second, connect, pf, add1, first, connect, "end"]
    requires Plain(first, {}) && Plain(second, {first}) && Plain(prev, {first, second})
    requires Plain(pf, {first, second, prev}) && Plain(ps, {first, second, prev, pf})
    requires Plain(dup, {first, second, prev}) && Means(dup, map[], CtorValue(DUP))
    requires Plain(add1, {first, second, prev, pf, ps}) && Means(add1, map[], CtorValue(ADD1))
    requires Plain(connect, {first, second, prev, pf, ps}) && Means(connect, map[], PrimValue(ConnectP))
    ensures Standing(5, texts, 0, map[], Before(m, [p, f, s])) == Some(After(m, 5, Add1DupScript(m, p, f, s)))
  {
    hide Standing, DupBlock, Add1DupScript, Add1DupRest, Local, Means, DupEnv;
    Add1DupNames(first, second, prev, pf, ps, add1, connect, m, p, f, s);
    HeadAdd1Dup(texts, first, second, prev, pf, ps, dup, add1, connect, m, p, f, s);
    var x, y := WireEnd(Wire(m, 1), true), WireEnd(Wire(m, 2), true);
    var w4 := World(m, 3, [], DupBlock(m, 0, p));
    var env := DupEnv(m, first, second, prev, pf, ps, p, f, s);
    RunAdd1DupRest(texts, first, second, pf, ps, add1, connect, env, m, f, s, x, y, w4);
    Add1DupParts(m, p, f, s);
  }

  lemma Add1DupParts(m: set<NodeId>, p: End, f: End, s: End)
    ensures Add1DupScript(m, p, f, s)
         == DupBlock(m, 0, p) + Add1DupRest(m, f, s, WireEnd(Wire(m, 1), true), WireEnd(Wire(m, 2), true))
  {
    hide DupBlock, Add1Block;
  }

  function Add1DupRest(m: set<NodeId>, first: End, second: End, x: End, y: End): seq<Action> {
    Add1Block(m, 3, y) + [Join(Principal(NodeId(m, 3)), second)]
      + Add1Block(m, 4, x) + [Join(Principal(NodeId(m, 4)), first)]
  }

  lemma RunAdd1DupRest(texts: seq<string>, first: string, second: string, pf: string, ps: string,
                       add1: string, connect: string, env: Names,
                       m: set<NodeId>, f: End, s: End, x: End, y: End, w: World)
    requires |texts| == 22
    requires texts[13..] == [ps, add1, second, connect, pf, add1, first, connect, "end"]
    requires Local(first, env, Ref(f)) && Local(second, env, Ref(s)) && Local(pf, env, Ref(x)) && Local(ps, env, Ref(y))
    requires Means(add1, env, CtorValue(ADD1)) && Means(connect, env, PrimValue(ConnectP))
    requires x.WireEnd? && y.WireEnd? && w.makers == m && w.next == 3 && w.stack == []
    ensures Standing(5, texts, 13, env, w) == Some(After(m, 5, w.script + Add1DupRest(m, f, s, x, y)))
  {
    hide Standing, Local, Means, Add1Block;
    assert forall i :: 0 <= i < 9 ==> texts[13 + i] == texts[13..][i];
    var n3, n4 := Principal(NodeId(m, 3)), Principal(NodeId(m, 4));
    RunSucc(texts, 13, ps, add1, second, connect, env, m, s, y, w);
    var w3 := World(m, 4, [], w.script + Add1Block(m, 3, y) + [Join(n3, s)]);
    RunSucc(texts, 17, pf, add1, first, connect, env, m, f, x, w3);
    var w6 := World(m, 5, [], w3.script + Add1Block(m, 4, x) + [Join(n4, f)]);
    AtEnd(5, texts, 21, env, w6);
    assert w6.script == w.script + Add1DupRest(m, f, s, x, y);
  }

  // `rest add1 result connect`
  lemma RunSucc(texts: seq<string>, i: nat, rest: string, add1: string, result: string, connect: string, env: Names,
                m: set<NodeId>, r: End, x: End, w: World)
    requires i + 4 < |texts|
    requires texts[i] == rest && texts[i + 1] == add1 && texts[i + 2] == result && texts[i + 3] == connect
    requires Local(rest, env, Ref(x)) && Local(result, env, Ref(r))
    requires Means(add1, env, CtorValue(ADD1)) && Means(connect, env, PrimValue(ConnectP))
    requires x.WireEnd? && w.makers == m && w.stack == []
    ensures Standing(5, texts, i, env, w)
         == Standing(5, texts, i + 4, env,
              World(m, w.next + 1, [], w.script + Add1Block(m, w.next, x) + [Join(Principal(NodeId(m, w.next)), r)]))
  {
    hide Standing, Add1Block;
    var n := Principal(NodeId(m, w.next));
    AtLocal(5, texts, i, env, w, Ref(x));
    var w1 := w.(stack := [] + [Ref(x)]);
    AtAdd1(5, texts, i + 1, env, w1, [], x);
    var w2 := World(m, w.next + 1, [] + [Ref(n)], w1.script + Add1Block(m, w.next, x));
    AtConnectTop(5, texts, i + 2, env, w2, [], n, r);
  }

  // zero-mul: erase the other factor and give zero.
  function ZeroMulScript(m: set<NodeId>, mulend: End, result: End): seq<Action> {
    EraseBlock(m, 0, mulend) + ZeroBlock(m, 1) + [Join(Principal(NodeId(m, 1)), result)]
  }

  lemma RunZeroMul(texts: seq<string>, mulend: string, result: string, erase: string, zero: string, connect: string,
                   m: set<NodeId>, a: End, r: End)
    requires texts == ["(", mulend, result, ")", mulend, erase, zero, result, connect, "end"]
    requires Plain(mulend, {}) && Plain(result, {mulend})
    requires Plain(erase, {mulend, result}) && Means(erase, map[], CtorValue(ERASE))
    requires Plain(zero, {mulend, result}) && Means(zero, map[], CtorValue(ZERO))
    requires Plain(connect, {mulend, result}) && Means(connect, map[], PrimValue(ConnectP))
    ensures Standing(6, texts, 0, map[], Before(m, [a, r])) == Some(After(m, 2, ZeroMulScript(m, a, r)))
  {
    hide Standing;
    var w0, w1 := Before(m, [a, r]), World(m, 0, [], []);
    assert w0.stack == [] + [Ref(a), Ref(r)];
    AtBind2(6, texts, 0, map[], w0, [], Ref(a), Ref(r));
    assert w0.(stack := []) == w1;
    var env: Names := map[][result := Ref(r)][mulend := Ref(a)];
    AtLocal(6, texts, 4, env, w1, Ref(a));
    var w2 := w1.(stack := [] + [Ref(a)]);
    AtErase(6, texts, 5, env, w2, [], a);
    var w3 := World(m, 1, [], [] + EraseBlock(m, 0, a));
    AtZero(6, texts, 6, env, w3);
    var n := Principal(NodeId(m, 1));
    var w4 := World(m, 2, [] + [Ref(n)], w3.script + ZeroBlock(m, 1));
    AtConnectTop(6, texts, 7, env, w4, [], n, r);
    var w5 := w4.(stack := []).Log(Join(n, r));
    AtEnd(6, texts, 9, env, w5);
    assert w5.script == ZeroMulScript(m, a, r);
  }

  // add1-mul: copy the other factor; multiply the copy by the rest, and add the other copy.
  function Add1MulScript(m: set<NodeId>, prev: End, mulend: End, result: End): seq<Action> {
    var x, y := WireEnd(Wire(m, 1), true), WireEnd(Wire(m, 2), true);
    DupBlock(m, 0, mulend) + Add1MulRest(m, prev, result, x, y)
  }

  function Add1MulRest(m: set<NodeId>, prev: End, result: End, x: End, y: End): seq<Action> {
    BinaryBlock(MUL, m, 3, y, prev) + BinaryBlock(ADD, m, 5, WireEnd(Wire(m, 4), true), x)
      + [Join(WireEnd(Wire(m, 6), true), result)]
  }

  lemma Add1MulNames(mulend: string, result: string, prev: string, mf: string, ms: string,
                     swap: string, mul: string, add: string, connect: string, m: set<NodeId>, p: End, a: End, r: End)
    requires Plain(mulend, {}) && Plain(result, {mulend}) && Plain(prev, {mulend, result})
    requires Plain(mf, {mulend, result, prev}) && Plain(ms, {mulend, result, prev, mf})
    requires Plain(swap, {mulend, result, prev, mf, ms}) && Means(swap, map[], PrimValue(SwapP))
    requires Plain(mul, {mulend, result, prev, mf, ms}) && Means(mul, map[], CtorValue(MUL))
    requires Plain(add, {mulend, result, prev, mf, ms}) && Means(add, map[], CtorValue(ADD))
    requires Plain(connect, {mulend, result, prev, mf, ms}) && Means(connect, map[], PrimValue(ConnectP))
    ensures var env := DupEnv(m, mulend, result, prev, mf, ms, p, a, r);
            && Local(result, env, Ref(r)) && Local(prev, env, Ref(p))
            && Local(mf, env, Ref(WireEnd(Wire(m, 1), true))) && Local(ms, env, Ref(WireEnd(Wire(m, 2), true)))
            && Means(swap, env, PrimValue(SwapP)) && Means(mul, env, CtorValue(MUL)) && Means(add, env, CtorValue(ADD))
            && Means(connect, env, PrimValue(ConnectP))
  {
  }

  lemma HeadAdd1Mul(texts: seq<string>, mulend: string, result: string, prev: string, mf: string, ms: string,
                   dup: string, swap: string, mul: string, add: string, connect: string,
                   m: set<NodeId>, p: End, a: End, r: End)
    requires texts == ["(", mulend, result, ")", "(", prev, ")", mulend, dup, "(", mf, ms, ")",
                       prev, ms, swap, mul, mf, add, result, connect, "end"]
    requires Plain(mulend, {}) && Plain(result, {mulend}) && Plain(prev, {mulend, result})
    requires mf != ")" && ms != ")" && Plain(dup, {mulend, result, prev}) && Means(dup, map[], CtorValue(DUP))
    ensures Standing(7, texts, 0, map[], Before(m, [p, a, r]))
         == Standing(7, texts, 13, DupEnv(m, mulend, result, prev, mf, ms, p, a, r), World(m, 3, [], DupBlock(m, 0, a)))
  {
    hide Standing, DupBlock, Means, DupEnv, Before;
    DupHeaders(7, texts, result, mulend, prev, mulend, dup, mf, ms, m, p, a, r, a);
  }

  lemma RunAdd1Mul(texts: seq<string>, mulend: string, result: string, prev: string, mf: string, ms: string,
                   dup: string, swap: string, mul: string, add: string, connect: string,
                   m: set<NodeId>, p: End, a: End, r: End)
    requires texts == ["(", mulend, result, ")", "(", prev, ")", mulend, dup, "(", mf, ms, ")",
                       prev, ms, swap, mul, mf, add, result, connect, "end"]
    requires Plain(mulend, {}) && Plain(result, {mulend}) && Plain(prev, {mulend, result})
    requires Plain(mf, {mulend, result, prev}) && Plain(ms, {mulend, result, prev, mf})
    requires Plain(dup, {mulend, result, prev}) && Means(dup, map[], CtorValue(DUP))
    requires Plain(swap, {mulend, result, prev, mf, ms}) && Means(swap, map[], PrimValue(SwapP))
    requires Plain(mul, {mulend, result, prev, mf, ms}) && Means(mul, map[], CtorValue(MUL))
    requires Plain(add, {mulend, result, prev, mf, ms}) && Means(add, map[], CtorValue(ADD))
    requires Plain(connect, {mulend, result, prev, mf, ms}) && Means(connect, map[], PrimValue(ConnectP))
    requires p.WireEnd?
    ensures Standing(7, texts, 0, map[], Before(m, [p, a, r])) == Some(After(m, 7, Add1MulScript(m, p, a, r)))
  {
    hide Standing, DupBlock, BinaryBlock, Add1MulRest, Local, Means, DupEnv;
    Add1MulNames(mulend, result, prev, mf, ms, swap, mul, add, connect, m, p, a, r);
    HeadAdd1Mul(texts, mulend, result, prev, mf, ms, dup, swap, mul, add, connect, m, p, a, r);
    var x, y := WireEnd(Wire(m, 1), true), WireEnd(Wire(m, 2), true);
    var w4 := World(m, 3, [], DupBlock(m, 0, a));
    var env := DupEnv(m, mulend, result, prev, mf, ms, p, a, r);
    RunAdd1MulRest(texts, result, prev, mf, ms, swap, mul, add, connect, env, m, p, r, x, y, w4);
    assert w4.script + Add1MulRest(m, p, r, x, y) == Add1MulScript(m, p, a, r);
  }

  lemma RunAdd1MulRest(texts: seq<string>, result: string, prev: string, mf: string, ms: string,
                       swap: string, mul: string, add: string, connect: string, env: Names,
                       m: set<NodeId>, p: End, r: End, x: End, y: End, w: World)
    requires |texts| == 22
    requires texts[13..] == [prev, ms, swap, mul, mf, add, result, connect, "end"]
    requires Local(result, env, Ref(r)) && Local(prev, env, Ref(p)) && Local(mf, env, Ref(x)) && Local(ms, env, Ref(y))
    requires Means(swap, env, PrimValue(SwapP)) && Means(mul, env, CtorValue(MUL)) && Means(add, env, CtorValue(ADD))
    requires Means(connect, env, PrimValue(ConnectP))
    requires x.WireEnd? && p.WireEnd? && w.makers == m && w.next == 3 && w.stack == []
    ensures Standing(7, texts, 13, env, w) == Some(After(m, 7, w.script + Add1MulRest(m, p, r, x, y)))
  {
    hide Standing, Local, Means, BinaryBlock;
    assert forall i :: 0 <= i < 9 ==> texts[13 + i] == texts[13..][i];
    var u, v := WireEnd(Wire(m, 4), true), WireEnd(Wire(m, 6), true);
    RunMulWord(texts, prev, ms, swap, mul, env, m, p, y, w);
    var w4 := World(m, 5, [Ref(u)], w.script + BinaryBlock(MUL, m, 3, y, p));
    RunAddWord(texts, result, mf, add, connect, env, m, r, x, w4);
    assert w4.script + BinaryBlock(ADD, m, 5, u, x) + [Join(v, r)] == w.script + Add1MulRest(m, p, r, x, y);
  }

  // `prev ms swap mul`
  lemma RunMulWord(texts: seq<string>, prev: string, ms: string, swap: string, mul: string, env: Names,
                   m: set<NodeId>, p: End, y: End, w: World)
    requires |texts| == 22
    requires texts[13] == prev && texts[14] == ms && texts[15] == swap && texts[16] == mul
    requires Local(prev, env, Ref(p)) && Local(ms, env, Ref(y))
    requires Means(swap, env, PrimValue(SwapP)) && Means(mul, env, CtorValue(MUL))
    requires p.WireEnd? && w.makers == m && w.next == 3 && w.stack == []
    ensures Standing(7, texts, 13, env, w)
         == Standing(7, texts, 17, env,
              World(m, 5, [Ref(WireEnd(Wire(m, 4), true))], w.script + BinaryBlock(MUL, m, 3, y, p)))
  {
    hide Standing, BinaryBlock;
    AtLocal(7, texts, 13, env, w, Ref(p));
    var w1 := w.(stack := [] + [Ref(p)]);
    AtLocal(7, texts, 14, env, w1, Ref(y));
    var w2 := w1.(stack := w1.stack + [Ref(y)]);
    assert w2.stack == [] + [Ref(p), Ref(y)];
    AtSwap(7, texts, 15, env, w2, [], Ref(p), Ref(y));
    var w3 := w2.(stack := [] + [Ref(y), Ref(p)]);
    AtBinary(7, texts, 16, env, w3, [], MUL, y, p);
    assert [] + [Ref(WireEnd(Wire(m, 4), true))] == [Ref(WireEnd(Wire(m, 4), true))];
  }

  // `mf add result connect`
  lemma RunAddWord(texts: seq<string>, result: string, mf: string, add: string, connect: string, env: Names,
                   m: set<NodeId>, r: End, x: End, w: World)
    requires |texts| == 22
    requires texts[17] == mf && texts[18] == add && texts[19] == result && texts[20] == connect && texts[21] == "end"
    requires Local(result, env, Ref(r)) && Local(mf, env, Ref(x)) && Means(add, env, CtorValue(ADD))
    requires Means(connect, env, PrimValue(ConnectP))
    requires x.WireEnd? && w.makers == m && w.next == 5 && w.stack == [Ref(WireEnd(Wire(m, 4), true))]
    ensures Standing(7, texts, 17, env, w)
         == Some(After(m, 7, w.script + BinaryBlock(ADD, m, 5, WireEnd(Wire(m, 4), true), x)
                               + [Join(WireEnd(Wire(m, 6), true), r)]))
  {
    hide Standing, BinaryBlock;
    var u, v := WireEnd(Wire(m, 4), true), WireEnd(Wire(m, 6), true);
    AtLocal(7, texts, 17, env, w, Ref(x));
    var w5 := w.(stack := w.stack + [Ref(x)]);
    assert w5.stack == [] + [Ref(u), Ref(x)];
    AtBinary(7, texts, 18, env, w5, [], ADD, u, x);
    var w6 := World(m, 7, [] + [Ref(v)], w5.script + BinaryBlock(ADD, m, 5, u, x));
    AtConnectTop(7, texts, 19, env, w6, [], v, r);
    AtEnd(7, texts, 21, env, w6.(stack := []).Log(Join(v, r)));
  }
}
