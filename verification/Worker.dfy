/**
 The worker: an inner interpreter with a value stack and a return stack, updated in place.

 What it does to the net is logged in `script`; how a `connect` of the log changes the wires is in module Heap.
 */
module Worker {
  import opened Links
  import opened Script
  import opened Machine
  import opened Execution
  import opened Net

  // A function being executed: frame.c
  class Activation {
    const code: Function
    var cursor: nat
    var locals: map<nat, Value>

    constructor (code: Function)
      ensures AsFrame() == NewFrame(code)
    {
      this.code := code;
      cursor, locals := 0, map[];
    }

    function AsFrame(): Frame
      reads this
    {
      Frame(code, cursor, locals)
    }

    predicate IsFinished()
      reads this
    {
      cursor >= |code|
    }

    method FetchOpcode() returns (op: Opcode)
      requires !IsFinished()
      modifies this`cursor
      ensures op == code[old(cursor)] && AsFrame() == old(AsFrame()).(cursor := old(cursor) + 1)
    {
      op := code[cursor];
      cursor := cursor + 1;
    }
  }

  class Worker {
    const program: seq<Function>
    var makers: set<NodeId>
    var next: nat
    var values: seq<Value>
    var activations: seq<Activation>
    var script: seq<Action>
    var nodes: map<NodeId, Node>

    ghost predicate Valid()
      reads this
    {
      forall i, j :: 0 <= i < j < |activations| ==> activations[i] != activations[j]
    }

    constructor (program: seq<Function>)
      ensures Valid() && this.program == program && values == [] && activations == [] && nodes == map[]
    {
      this.program := program;
      makers, next, values, activations, script, nodes := {}, 0, [], [], [], map[];
    }

    ghost function Calls(): (calls: seq<Frame>)
      reads this, activations
      ensures |calls| == |activations|
    {
      seq(|activations|, i requires 0 <= i < |activations| reads this, activations => activations[i].AsFrame())
    }

    function ToWorld(): World
      reads this
    {
      World(makers, next, values, script)
    }

    ghost function AsState(): State
      reads this, activations
    {
      Running(Calls(), ToWorld())
    }

    // ----- The value stack -----

    method Push(value: Value)
      modifies this`values
      ensures values == old(values) + [value]
    {
      values := values + [value];
    }

    method Pop() returns (value: Value)
      requires values != []
      modifies this`values
      ensures value == old(values)[|old(values)| - 1] && values == old(values)[..|old(values)| - 1]
    {
      value := values[|values| - 1];
      values := values[..|values| - 1];
    }

    method Log(action: Action)
      modifies this`script
      ensures script == old(script) + [action]
    {
      script := script + [action];
    }

    method NewWire() returns (wire: Wire)
      modifies this`next, this`script
      ensures wire == old(ToWorld()).FreshWire() && ToWorld() == old(ToWorld()).MakeWire()
    {
      wire := Wire(makers, next);
      next := next + 1;
      Log(Action.NewWire(wire));
    }

    // ----- worker_reconnect_node.c -----

    method ReconnectInput(n: NodeId, ctor: Ctor, index: nat, e: End)
      modifies this`next, this`script
      ensures ToWorld() == Machine.ReconnectInput(old(ToWorld()), n, ctor, index, e)
    {
      if ctor.IsPrincipal(index) {
        Log(Fill(n, index, Principal(n)));
        Log(Join(Principal(n), e));
      } else if e.Principal? {
        var wire := NewWire();
        Log(Fill(n, index, WireEnd(wire, false)));
        Log(Join(WireEnd(wire, true), e));
      } else {
        Log(Fill(n, index, e));
      }
    }

    method ReconnectOutput(n: NodeId, ctor: Ctor, index: nat) returns (value: Value)
      modifies this`next, this`script
      ensures values == old(values)
      ensures ToWorld().Push(value) == Machine.ReconnectOutput(old(ToWorld()), n, ctor, index)
    {
      if ctor.IsPrincipal(index) {
        Log(Fill(n, index, Principal(n)));
        return Ref(Principal(n));
      } else {
        var wire := NewWire();
        Log(Fill(n, index, WireEnd(wire, false)));
        return Ref(WireEnd(wire, true));
      }
    }

    // The node is new; it fails when the stack holds too little, or something that is not an end.
    method ReconnectNode(ctor: Ctor) returns (ok: bool)
      modifies this`next, this`script, this`values
      ensures NewNode(old(ToWorld()), ctor) == if ok then Some(ToWorld()) else None
    {
      hide Machine.ReconnectInput, Machine.ReconnectOutput;
      var n := NodeId(makers, next);
      next := next + 1;
      Log(Begin(n, ctor));
      var count := 0;
      ghost var first := ToWorld();
      while count < |ctor.inputs|
        invariant count <= |ctor.inputs|
        invariant ReconnectInputs(first, n, ctor, |ctor.inputs|)
               == ReconnectInputs(ToWorld(), n, ctor, |ctor.inputs| - count)
      {
        var index := |ctor.inputs| - 1 - count;
        if values == [] { return false; }
        ghost var before := ToWorld();
        var value := Pop();
        assert ToWorld() == before.Pop() && value == before.Top();
        if !value.Ref? { return false; }
        ReconnectInput(n, ctor, index, value.end);
        count := count + 1;
      }
      ghost var middle := ToWorld();
      count := 0;
      while count < |ctor.outputs|
        invariant count <= |ctor.outputs|
        invariant ReconnectOutputs(middle, n, ctor, |ctor.inputs|)
               == ReconnectOutputs(ToWorld(), n, ctor, |ctor.inputs| + count)
      {
        var index := |ctor.inputs| + count;
        var value := ReconnectOutput(n, ctor, index);
        Push(value);
        count := count + 1;
      }
      Log(Finish(n));
      return true;
    }

    // ----- Primitives -----

    method Duplicate()
      requires |values| >= 1
      modifies this`values
      ensures values == old(values)[..|old(values)| - 1]
                + [old(values)[|old(values)| - 1], old(values)[|old(values)| - 1]]
    {
      var x := Pop();
      Push(x);
      Push(x);
    }

    method Drop()
      requires |values| >= 1
      modifies this`values
      ensures values == old(values)[..|old(values)| - 1] + []
    {
      var dropped := Pop();
    }

    method Swap()
      requires |values| >= 2
      modifies this`values
      ensures values == old(values)[..|old(values)| - 2]
                + [old(values)[|old(values)| - 1], old(values)[|old(values)| - 2]]
    {
      var y := Pop();
      var x := Pop();
      Push(y);
      Push(x);
    }

    method Over()
      requires |values| >= 2
      modifies this`values
      ensures values == old(values)[..|old(values)| - 2]
                + [old(values)[|old(values)| - 2], old(values)[|old(values)| - 1], old(values)[|old(values)| - 2]]
    {
      var y := Pop();
      var x := Pop();
      Push(x);
      Push(y);
      Push(x);
    }

    method Tuck()
      requires |values| >= 2
      modifies this`values
      ensures values == old(values)[..|old(values)| - 2]
                + [old(values)[|old(values)| - 1], old(values)[|old(values)| - 2], old(values)[|old(values)| - 1]]
    {
      var y := Pop();
      var x := Pop();
      Push(y);
      Push(x);
      Push(y);
    }

    method Rotate()
      requires |values| >= 3
      modifies this`values
      ensures values == old(values)[..|old(values)| - 3]
                + [old(values)[|old(values)| - 2], old(values)[|old(values)| - 1], old(values)[|old(values)| - 3]]
    {
      var z := Pop();
      var y := Pop();
      var x := Pop();
      Push(y);
      Push(z);
      Push(x);
    }

    // `x_link`
    method LinkEnds()
      modifies this`next, this`script, this`values
      ensures Some(ToWorld()) == ApplyPrim(old(ToWorld()), LinkP)
      ensures |values| == |old(values)| + 2 && values[..|old(values)|] == old(values)
      ensures var e, m := values[|old(values)|], values[|old(values)| + 1];
              && e.Ref? && m.Ref? && e.end.WireEnd? && m.end == e.end.Mate() && e.end.wire == Wire(makers, old(next))
              && script == old(script) + [Action.NewWire(e.end.wire)]
    {
      var wire := NewWire();
      Push(Ref(WireEnd(wire, false)));
      Push(Ref(WireEnd(wire, true)));
    }

    // `x_connect`
    method ConnectEnds() returns (ok: bool)
      requires |values| >= 2
      modifies this`script, this`values
      ensures ApplyPrim(old(ToWorld()), ConnectP) == if ok then Some(ToWorld()) else None
    {
      var second := Pop();
      var first := Pop();
      assert old(values)[|old(values)| - 2..] == [first, second] && values == old(values)[..|old(values)| - 2];
      if !first.Ref? || !second.Ref? { return false; }
      Log(Join(first.end, second.end));
      return true;
    }

    method ApplyPrimitive(p: Prim) returns (ok: bool)
      modifies this`next, this`script, this`values
      ensures ApplyPrim(old(ToWorld()), p) == if ok then Some(ToWorld()) else None
    {
      if |values| < PrimInputs(p) { return false; }
      ghost var args := values[|values| - PrimInputs(p)..];
      assert forall i :: 0 <= i < |args| ==> args[i] == values[|values| - PrimInputs(p) + i];
      assert p.DropP? ==> values[..|values| - 1] + [] == values[..|values| - 1];
      ok := true;
      match p
      case LinkP => LinkEnds();
      case ConnectP => ok := ConnectEnds();
      case DupP => Duplicate();
      case DropP => Drop();
      case SwapP => Swap();
      case OverP => Over();
      case TuckP => Tuck();
      case RotP => Rotate();
    }

    // ----- worker_apply.c -----

    method Apply(target: Value) returns (ok: bool)
      requires Valid()
      modifies this`next, this`script, this`values, this`activations
      ensures Valid() && |activations| >= |old(activations)| && activations[..|old(activations)|] == old(activations)
      ensures forall frame :: frame in activations && frame !in old(activations) ==> fresh(frame)
      ensures ApplyValue(program, old(Calls()), old(ToWorld()), target) == if ok then AsState() else Crashed
    {
      match target
      case CtorValue(ctor) =>
        ok := ReconnectNode(ctor);
        assert Calls() == old(Calls());
      case FunctionValue(g) =>
        if g >= |program| { return false; }
        var frame := new Activation(program[g]);
        activations := activations + [frame];
        assert Calls() == old(Calls()) + [NewFrame(program[g])];
        ok := true;
      case PrimValue(p) =>
        ok := ApplyPrimitive(p);
        assert Calls() == old(Calls());
      case _ => ok := false;
    }

    // ----- worker_run_until.c -----

    // `frame_set_variable`, on a frame that may still be on the return stack
    method SetLocal(frame: Activation, index: nat, ghost base: seq<Frame>)
      requires Valid() && values != [] && Calls() == Above(base, frame.AsFrame())
      requires if frame.IsFinished() then frame !in activations
               else activations != [] && activations[|activations| - 1] == frame
      modifies this`values, frame`locals
      ensures ToWorld() == old(ToWorld()).Pop()
      ensures frame.AsFrame() == old(frame.AsFrame()).(locals := old(frame.locals)[index := old(ToWorld()).Top()])
      ensures Calls() == Above(base, frame.AsFrame())
    {
      var value := Pop();
      frame.locals := frame.locals[index := value];
      if !frame.IsFinished() {
        assert forall i :: 0 <= i < |activations| - 1 ==> activations[i] != frame && Calls()[i] == old(Calls())[i];
      }
    }

    // `frame` has been advanced; it is on top of the return stack unless it is finished.
    method ExecuteOpcode(frame: Activation, op: Opcode) returns (ok: bool)
      requires Valid()
      requires if frame.IsFinished() then frame !in activations
               else activations != [] && activations[|activations| - 1] == frame
      modifies this`next, this`script, this`values, this`activations, frame`locals
      ensures Valid() && |activations| >= |old(activations)| && activations[..|old(activations)|] == old(activations)
      ensures forall f :: f in activations && f !in old(activations) ==> fresh(f)
      ensures var base := if frame.IsFinished() then old(Calls()) else old(Calls())[..|old(activations)| - 1];
              Execute(program, base, old(frame.AsFrame()), old(ToWorld()), op) == if ok then AsState() else Crashed
    {
      hide ApplyValue;
      ghost var base := if frame.IsFinished() then Calls() else Calls()[..|activations| - 1];
      assert Calls() == Above(base, frame.AsFrame());
      match op
      case Apply =>
        if values == [] { return false; }
        var target := Pop();
        assert ToWorld() == old(ToWorld()).Pop() && target == old(ToWorld()).Top() && Calls() == old(Calls());
        ok := this.Apply(target);
      case Literal(value) =>
        Push(value);
        assert ToWorld() == old(ToWorld()).Push(value) && Calls() == old(Calls());
        ok := true;
      case GetVariable(index) =>
        if index !in frame.locals { return false; }
        Push(frame.locals[index]);
        assert Calls() == old(Calls());
        ok := true;
      case SetVariable(index) =>
        if values == [] { return false; }
        SetLocal(frame, index, base);
        ok := true;
    }

    method RunOneStep() returns (ok: bool)
      requires Valid() && activations != []
      modifies this`next, this`script, this`values, this`activations, activations[|activations| - 1]
      ensures Valid() && |activations| >= |old(activations)| - 1
      ensures activations[..|old(activations)| - 1] == old(activations)[..|old(activations)| - 1]
      ensures forall f :: f in activations && f !in old(activations) ==> fresh(f)
      ensures Step(program, old(AsState())) == if ok then AsState() else Crashed
    {
      hide Execute;
      var frame := activations[|activations| - 1];
      activations := activations[..|activations| - 1];
      ghost var base := Calls();
      assert base == old(Calls())[..|old(activations)| - 1];
      if frame.IsFinished() { return true; }
      var op := frame.FetchOpcode();
      assert Calls() == base;
      // a finished frame is not pushed again: a proper tail call
      if !frame.IsFinished() {
        activations := activations + [frame];
        assert Calls() == base + [frame.AsFrame()];
      }
      assert !frame.IsFinished() ==> Calls()[..|activations| - 1] == base;
      ok := ExecuteOpcode(frame, op);
    }

    // Runs until the frame on top, of function `f`, and everything it calls is done.  It always ends.
    method RunUntil(baseLength: nat, ghost f: nat) returns (ok: bool)
      requires Valid() && CompiledProgram(program) && f < |program|
      requires |activations| == baseLength + 1 && activations[baseLength].AsFrame() == NewFrame(program[f])
      modifies this`next, this`script, this`values, this`activations, activations[baseLength]
      ensures Valid() && (ok <==> Call(program, f, old(ToWorld())).Done?)
      ensures ok ==> activations == old(activations)[..baseLength]
      ensures ok ==> ToWorld() == Call(program, f, old(ToWorld())).world
      ensures forall a :: a in activations && a !in old(activations) ==> fresh(a)
    {
      hide Step, Call, CompiledProgram, InlinedCall;
      ghost var left := InlinedCall(program, f);
      ghost var last := Steps(program, Running([NewFrame(program[f])], ToWorld()), left);
      CallEnds(program, f, [], ToWorld());
      assert Calls()[baseLength..] == [NewFrame(program[f])];
      assert [] + [NewFrame(program[f])] == [NewFrame(program[f])];
      ghost var top := activations[baseLength];
      while |activations| > baseLength
        invariant Valid() && |activations| >= baseLength && activations[..baseLength] == old(activations)[..baseLength]
        invariant forall i :: baseLength <= i < |activations| ==> activations[i] == top || fresh(activations[i])
        invariant Steps(program, Running(Calls()[baseLength..], ToWorld()), left) == last
        decreases left
      {
        ghost var base, upper := Calls()[..baseLength], Calls()[baseLength..];
        assert Calls() == base + upper && upper != [];
        StepAbove(program, base, upper, ToWorld());
        assert left > 0;
        ghost var world, before := ToWorld(), activations;
        ok := RunOneStep();
        assert forall j :: 0 <= j < baseLength ==> activations[j] == activations[..baseLength][j] == before[j];
        forall i | baseLength <= i < |activations|
          ensures activations[i] == top || fresh(activations[i])
        {
          if activations[i] in before {
            var j :| 0 <= j < |before| && before[j] == activations[i];
          }
        }
        left := left - 1;
        if !ok {
          CrashedForever(program, left);
          return false;
        }
        assert Calls()[..baseLength] == base;
        LiftedBack(base, Calls(), ToWorld(), Step(program, Running(upper, world)));
      }
      assert Calls()[baseLength..] == [];
      NothingToDo(program, ToWorld(), left);
      assert activations == activations[..baseLength];
      return true;
    }

    // ----- worker_disconnect_node.c, worker_handle_task.c -----

    // The ends in the slots go onto the value stack, the principal one is dropped, and the node is gone.
    method DisconnectNode(n: NodeId)
      requires n in nodes && nodes[n].Complete()
      modifies this`values, this`nodes
      ensures values == old(values) + Refs(AuxEnds(old(nodes)[n])) && nodes == old(nodes) - {n}
    {
      hide Refs, AuxFrom;
      var node := nodes[n];
      var i := 0;
      while i < node.ctor.Arity()
        invariant i <= node.ctor.Arity() && nodes == old(nodes)
        invariant values + Refs(AuxFrom(node, i)) == old(values) + Refs(AuxEnds(node))
      {
        var end := node.slots[i];
        NextEnd(node, i, values);
        if !end.Principal? {
          Push(Ref(end));
        }
        i := i + 1;
      }
      NextEnd(node, i, values);
      nodes := nodes - {n};
    }

    // One interaction: it takes the two nodes away and logs exactly what the body of the rule does to the ends
    // they held; whatever else was on the two stacks is as before.
    method HandleTask(l: NodeId, r: NodeId, body: nat) returns (ok: bool)
      requires Valid() && CompiledProgram(program) && body < |program| && l != r
      requires l in nodes && nodes[l].Complete() && r in nodes && nodes[r].Complete()
      modifies this`next, this`makers, this`script, this`values, this`activations, this`nodes
      ensures Valid() && nodes == old(nodes) - {l, r}
      ensures var ins := AuxEnds(old(nodes)[l]) + AuxEnds(old(nodes)[r]);
              var o := Call(program, body, World({l, r}, 0, Refs(ins), []));
              o.Done? ==>
                && ok && activations == old(activations) && values == old(values) + o.world.stack
                && script == o.world.script
    {
      ghost var ins := AuxEnds(nodes[l]) + AuxEnds(nodes[r]);
      DisconnectNode(l);
      DisconnectNode(r);
      RefsConcat(AuxEnds(old(nodes)[l]), AuxEnds(old(nodes)[r]));
      assert values == old(values) + Refs(ins);
      makers, next, script := {l, r}, 0, [];
      if Call(program, body, World({l, r}, 0, Refs(ins), [])).Done? {
        CallDeeper(program, body, World({l, r}, 0, Refs(ins), []), old(values));
      }
      var baseLength := |activations|;
      var frame := new Activation(program[body]);
      activations := activations + [frame];
      ok := RunUntil(baseLength, body);
    }
  }

  lemma RefsConcat(a: seq<End>, b: seq<End>)
    ensures Refs(a + b) == Refs(a) + Refs(b)
  {
  }

  lemma NextEnd(node: Node, i: nat, values: seq<Value>)
    requires i < node.ctor.Arity() ==> i in node.slots
    ensures i >= node.ctor.Arity() ==> values + Refs(AuxFrom(node, i)) == values
    ensures i < node.ctor.Arity() ==>
              (if node.slots[i].WireEnd? then values + [Ref(node.slots[i])] else values) + Refs(AuxFrom(node, i + 1))
              == values + Refs(AuxFrom(node, i))
  {
    if i < node.ctor.Arity() && node.slots[i].WireEnd? {
      RefsConcat([node.slots[i]], AuxFrom(node, i + 1));
      assert Refs([node.slots[i]]) == [Ref(node.slots[i])];
    }
  }

  // ----- What lies deeper on the value stack does not matter -----

  function Over(base: seq<Value>, w: World): World {
    w.(stack := base + w.stack)
  }

  function OverOutcome(base: seq<Value>, o: Outcome): Outcome {
    if o.Done? then o.(world := Over(base, o.world)) else o
  }

  lemma {:induction false} InputsDeeper(w: World, n: NodeId, ctor: Ctor, k: nat, base: seq<Value>)
    requires ReconnectInputs(w, n, ctor, k).Some?
    ensures ReconnectInputs(Over(base, w), n, ctor, k) == Some(Over(base, ReconnectInputs(w, n, ctor, k).value))
    decreases k
  {
    if k > 0 {
      assert Over(base, w).Pop().stack == Over(base, w.Pop()).stack;
      InputsDeeper(ReconnectInput(w.Pop(), n, ctor, k - 1, w.Top().end), n, ctor, k - 1, base);
    }
  }

  lemma {:induction false} OutputsDeeper(w: World, n: NodeId, ctor: Ctor, i: nat, base: seq<Value>)
    ensures ReconnectOutputs(Over(base, w), n, ctor, i) == Over(base, ReconnectOutputs(w, n, ctor, i))
    decreases ctor.Arity() - i
  {
    if i < ctor.Arity() {
      var w' := ReconnectOutput(w, n, ctor, i);
      assert ReconnectOutput(Over(base, w), n, ctor, i).stack == Over(base, w').stack;
      OutputsDeeper(w', n, ctor, i + 1, base);
    }
  }

  lemma NodeDeeper(w: World, ctor: Ctor, base: seq<Value>)
    requires NewNode(w, ctor).Some?
    ensures NewNode(Over(base, w), ctor) == Some(Over(base, NewNode(w, ctor).value))
  {
    var n := NodeId(w.makers, w.next);
    var w1 := w.(next := w.next + 1).Log(Begin(n, ctor));
    InputsDeeper(w1, n, ctor, |ctor.inputs|, base);
    OutputsDeeper(ReconnectInputs(w1, n, ctor, |ctor.inputs|).value, n, ctor, |ctor.inputs|, base);
  }

  lemma PrimDeeper(w: World, p: Prim, base: seq<Value>)
    requires ApplyPrim(w, p).Some?
    ensures ApplyPrim(Over(base, w), p) == Some(Over(base, ApplyPrim(w, p).value))
  {
    var k := |w.stack| - PrimInputs(p);
    assert (base + w.stack)[|base| + k..] == w.stack[k..];
    assert (base + w.stack)[..|base| + k] == base + w.stack[..k];
    var o := ApplyPrim(w, p).value;
    assert ApplyPrim(Over(base, w), p).value.stack == base + o.stack;
  }

  lemma {:induction false} CallDeeper(program: seq<Function>, f: nat, w: World, base: seq<Value>)
    requires f < |program| && Call(program, f, w).Done?
    ensures Call(program, f, Over(base, w)) == OverOutcome(base, Call(program, f, w))
    decreases f, |program[f]|, 1
  {
    if program[f] != [] {
      RunDeeper(program, f, program[f], map[], w, base);
    }
  }

  lemma {:induction false} RunDeeper(
    program: seq<Function>, bound: nat, code: Function, locals: map<nat, Value>, w: World, base: seq<Value>)
    requires Run(program, bound, code, locals, w).Done?
    ensures Run(program, bound, code, locals, Over(base, w)) == OverOutcome(base, Run(program, bound, code, locals, w))
    decreases bound, |code|, 0
  {
    if code != [] {
      match code[0]
      case Literal(v) =>
        assert Over(base, w).Push(v) == Over(base, w.Push(v));
        RunDeeper(program, bound, code[1..], locals, w.Push(v), base);
      case GetVariable(i) =>
        assert Over(base, w).Push(locals[i]) == Over(base, w.Push(locals[i]));
        RunDeeper(program, bound, code[1..], locals, w.Push(locals[i]), base);
      case SetVariable(i) =>
        assert Over(base, w).Pop() == Over(base, w.Pop()) && Over(base, w).Top() == w.Top();
        RunDeeper(program, bound, code[1..], locals[i := w.Top()], w.Pop(), base);
      case Apply =>
        assert Over(base, w).Pop() == Over(base, w.Pop()) && Over(base, w).Top() == w.Top();
        InvokeDeeper(program, bound, w.Pop(), w.Top(), base);
        RunDeeper(program, bound, code[1..], locals, Invoke(program, bound, w.Pop(), w.Top()).world, base);
    }
  }

  lemma {:induction false} InvokeDeeper(program: seq<Function>, bound: nat, w: World, target: Value, base: seq<Value>)
    requires Invoke(program, bound, w, target).Done?
    ensures Invoke(program, bound, Over(base, w), target) == OverOutcome(base, Invoke(program, bound, w, target))
    decreases bound, 0, 0
  {
    hide NewNode, ApplyPrim;
    match target
    case CtorValue(ctor) => NodeDeeper(w, ctor, base);
    case FunctionValue(g) => CallDeeper(program, g, w, base);
    case PrimValue(p) => PrimDeeper(w, p, base);
  }

  // ----- Frames below the ones that run -----

  function Lift(base: seq<Frame>, s: State): State {
    if s.Crashed? then Crashed else Running(base + s.calls, s.world)
  }

  lemma StepAbove(program: seq<Function>, base: seq<Frame>, upper: seq<Frame>, w: World)
    requires upper != []
    ensures Step(program, Running(base + upper, w)) == Lift(base, Step(program, Running(upper, w)))
  {
    hide NewNode, ApplyPrim, ApplyValue, Execute;
    var calls := base + upper;
    var under := upper[..|upper| - 1];
    assert calls[|calls| - 1] == upper[|upper| - 1] && calls[..|calls| - 1] == base + under;
    var frame := upper[|upper| - 1];
    if !frame.Finished() {
      ExecuteAbove(program, base, under, frame.(cursor := frame.cursor + 1), w, frame.code[frame.cursor]);
    }
  }

  lemma ExecuteAbove(program: seq<Function>, base: seq<Frame>, under: seq<Frame>, frame: Frame, w: World, op: Opcode)
    ensures Execute(program, base + under, frame, w, op) == Lift(base, Execute(program, under, frame, w, op))
  {
    hide NewNode, ApplyPrim, ApplyValue;
    forall frame: Frame
      ensures base + under + [frame] == base + (under + [frame])
    {
    }
    if op.Apply? && w.stack != [] {
      ApplyAbove(program, base, if frame.Finished() then under else under + [frame], w.Pop(), w.Top());
    }
  }

  lemma ApplyAbove(program: seq<Function>, base: seq<Frame>, calls: seq<Frame>, w: World, target: Value)
    ensures ApplyValue(program, base + calls, w, target) == Lift(base, ApplyValue(program, calls, w, target))
  {
    hide NewNode, ApplyPrim;
    if target.FunctionValue? && target.index < |program| {
      assert base + calls + [NewFrame(program[target.index])] == base + (calls + [NewFrame(program[target.index])]);
    }
  }

  lemma LiftedBack(base: seq<Frame>, calls: seq<Frame>, w: World, s: State)
    requires Running(calls, w) == Lift(base, s)
    ensures s == Running(calls[|base|..], w)
  {
  }

  lemma {:induction false} NothingToDo(program: seq<Function>, w: World, k: nat)
    ensures Steps(program, Running([], w), k) == Running([], w)
    decreases k
  {
    if k > 0 {
      NothingToDo(program, w, k - 1);
    }
  }
}
