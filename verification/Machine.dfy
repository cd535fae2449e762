/**
 The stack machine: values, opcodes, frames, and what applying a value does.

 `Step` is the machine itself, one opcode at a time with frames on a return stack; `Run` is what a piece of
 code means.  A last opcode is run after its frame was dropped (proper tail call).
 */
module Machine {
  import opened Links
  import opened Script

  datatype Prim = ConnectP | LinkP | DupP | SwapP | DropP | RotP | OverP | TuckP

  datatype Value =
    | Ref(end: End)
    | CtorValue(ctor: Ctor)
    | FunctionValue(index: nat)
    | PrimValue(prim: Prim)
    | Int(n: int)
  {
    predicate Callable() {
      CtorValue? || FunctionValue? || PrimValue?
    }
  }

  datatype Opcode =
    | Apply
    | Literal(value: Value)
    | GetVariable(index: nat)
    | SetVariable(index: nat)

  type Function = seq<Opcode>

  datatype Option<+T> = None | Some(value: T)

  // What one worker sees while it runs code: the value stack, top last, and what it has done to the net.
  datatype World = World(makers: set<NodeId>, next: nat, stack: seq<Value>, script: seq<Action>)
  {
    function Push(v: Value): World {
      this.(stack := stack + [v])
    }

    function Top(): Value
      requires stack != []
    {
      stack[|stack| - 1]
    }

    function Pop(): World
      requires stack != []
    {
      this.(stack := stack[..|stack| - 1])
    }

    function Log(a: Action): World {
      this.(script := script + [a])
    }

    function FreshWire(): Wire {
      Wire(makers, next)
    }

    function MakeWire(): World {
      this.(next := next + 1, script := script + [NewWire(FreshWire())])
    }
  }

  // ----- Building a node -----

  function ReconnectInput(w: World, n: NodeId, ctor: Ctor, index: nat, e: End): World {
    if ctor.IsPrincipal(index) then
      w.Log(Fill(n, index, Principal(n))).Log(Join(Principal(n), e))
    else if e.Principal? then
      var x := w.FreshWire();
      w.MakeWire().Log(Fill(n, index, WireEnd(x, false))).Log(Join(WireEnd(x, true), e))
    else
      w.Log(Fill(n, index, e))
  }

  function ReconnectInputs(w: World, n: NodeId, ctor: Ctor, k: nat): Option<World>
    decreases k
  {
    if k == 0 then Some(w)
    else if w.stack == [] || !w.Top().Ref? then None
    else ReconnectInputs(ReconnectInput(w.Pop(), n, ctor, k - 1, w.Top().end), n, ctor, k - 1)
  }

  function ReconnectOutput(w: World, n: NodeId, ctor: Ctor, index: nat): World {
    if ctor.IsPrincipal(index) then
      w.Log(Fill(n, index, Principal(n))).Push(Ref(Principal(n)))
    else
      var x := w.FreshWire();
      w.MakeWire().Log(Fill(n, index, WireEnd(x, false))).Push(Ref(WireEnd(x, true)))
  }

  function ReconnectOutputs(w: World, n: NodeId, ctor: Ctor, index: nat): World
    decreases ctor.Arity() - index
  {
    if index >= ctor.Arity() then w
    else ReconnectOutputs(ReconnectOutput(w, n, ctor, index), n, ctor, index + 1)
  }

  function NewNode(w: World, ctor: Ctor): Option<World> {
    var n := NodeId(w.makers, w.next);
    match ReconnectInputs(w.(next := w.next + 1).Log(Begin(n, ctor)), n, ctor, |ctor.inputs|)
    case None => None
    case Some(w') => Some(ReconnectOutputs(w', n, ctor, |ctor.inputs|).Log(Finish(n)))
  }

  // ----- Primitives -----

  function PrimInputs(p: Prim): nat {
    match p
    case LinkP => 0
    case DupP => 1
    case DropP => 1
    case ConnectP => 2
    case SwapP => 2
    case OverP => 2
    case TuckP => 2
    case RotP => 3
  }

  function ApplyPrim(w: World, p: Prim): Option<World> {
    if |w.stack| < PrimInputs(p) then None
    else
      var base := w.stack[..|w.stack| - PrimInputs(p)];
      var args := w.stack[|w.stack| - PrimInputs(p)..];
      match p
      case LinkP =>
        var x := w.FreshWire();
        Some(w.MakeWire().Push(Ref(WireEnd(x, false))).Push(Ref(WireEnd(x, true))))
      case ConnectP =>
        if args[0].Ref? && args[1].Ref?
        then Some(w.(stack := base).Log(Join(args[0].end, args[1].end)))
        else None
      case DupP => Some(w.(stack := base + [args[0], args[0]]))
      case DropP => Some(w.(stack := base))
      case SwapP => Some(w.(stack := base + [args[1], args[0]]))
      case OverP => Some(w.(stack := base + [args[0], args[1], args[0]]))
      case TuckP => Some(w.(stack := base + [args[1], args[0], args[1]]))
      case RotP => Some(w.(stack := base + [args[1], args[2], args[0]]))
  }

  // ----- The machine -----

  datatype Frame = Frame(code: Function, cursor: nat, locals: map<nat, Value>)
  {
    predicate Finished() {
      cursor >= |code|
    }
  }

  function NewFrame(code: Function): Frame {
    Frame(code, 0, map[])
  }

  datatype State = Running(calls: seq<Frame>, world: World) | Crashed

  function ApplyValue(program: seq<Function>, calls: seq<Frame>, w: World, target: Value): State {
    match target
    case CtorValue(ctor) =>
      (match NewNode(w, ctor) case None => Crashed case Some(w') => Running(calls, w'))
    case FunctionValue(g) =>
      if g < |program| then Running(calls + [NewFrame(program[g])], w) else Crashed
    case PrimValue(p) =>
      (match ApplyPrim(w, p) case None => Crashed case Some(w') => Running(calls, w'))
    case _ => Crashed
  }

  // One opcode.  `frame` has already been advanced; it is back on the return stack unless it is finished.
  function Execute(program: seq<Function>, base: seq<Frame>, frame: Frame, w: World, op: Opcode): State {
    var calls := if frame.Finished() then base else base + [frame];
    match op
    case Apply => if w.stack == [] then Crashed else ApplyValue(program, calls, w.Pop(), w.Top())
    case Literal(v) => Running(calls, w.Push(v))
    case GetVariable(i) =>
      if i in frame.locals then Running(calls, w.Push(frame.locals[i])) else Crashed
    case SetVariable(i) =>
      if w.stack == [] then Crashed
      else
        var frame' := frame.(locals := frame.locals[i := w.Top()]);
        Running(if frame.Finished() then base else base + [frame'], w.Pop())
  }

  function Step(program: seq<Function>, s: State): State {
    if s.Crashed? || s.calls == [] then s
    else
      var base, frame := s.calls[..|s.calls| - 1], s.calls[|s.calls| - 1];
      if frame.Finished() then Running(base, s.world)
      else Execute(program, base, frame.(cursor := frame.cursor + 1), s.world, frame.code[frame.cursor])
  }

  function Steps(program: seq<Function>, s: State, k: nat): State
    decreases k
  {
    if k == 0 then s else Steps(program, Step(program, s), k - 1)
  }

  // ----- What code means -----

  datatype Outcome = Done(world: World, locals: map<nat, Value>, steps: nat) | Stuck(steps: nat)

  function AddSteps(o: Outcome, k: nat): Outcome {
    match o
    case Done(w, locals, steps) => Done(w, locals, steps + k)
    case Stuck(steps) => Stuck(steps + k)
  }

  // Calling a function: an empty one still costs the step that drops its frame.
  function Call(program: seq<Function>, bound: nat, w: World): Outcome
    requires bound < |program|
    decreases bound, |program[bound]|, 1
  {
    if program[bound] == [] then Done(w, map[], 1) else Run(program, bound, program[bound], map[], w)
  }

  // Runs `code`, which may call functions below `bound` only.
  function Run(program: seq<Function>, bound: nat, code: Function, locals: map<nat, Value>, w: World): Outcome
    decreases bound, |code|, 0
  {
    if code == [] then Done(w, locals, 0)
    else
      match code[0]
      case Literal(v) => AddSteps(Run(program, bound, code[1..], locals, w.Push(v)), 1)
      case GetVariable(i) =>
        if i in locals then AddSteps(Run(program, bound, code[1..], locals, w.Push(locals[i])), 1) else Stuck(1)
      case SetVariable(i) =>
        if w.stack == [] then Stuck(1)
        else AddSteps(Run(program, bound, code[1..], locals[i := w.Top()], w.Pop()), 1)
      case Apply =>
        if w.stack == [] then Stuck(1)
        else
          match Invoke(program, bound, w.Pop(), w.Top())
          case Stuck(k) => Stuck(k + 1)
          case Done(w', _, k) => AddSteps(Run(program, bound, code[1..], locals, w'), k + 1)
  }

  // Applying a value, after the step that fetched the `Apply`.
  function Invoke(program: seq<Function>, bound: nat, w: World, target: Value): Outcome
    decreases bound, 0, 0
  {
    match target
    case CtorValue(ctor) =>
      (match NewNode(w, ctor) case None => Stuck(0) case Some(w') => Done(w', map[], 0))
    case FunctionValue(g) =>
      if g < bound && g < |program| then Call(program, g, w) else Stuck(0)
    case PrimValue(p) =>
      (match ApplyPrim(w, p) case None => Stuck(0) case Some(w') => Done(w', map[], 0))
    case _ => Stuck(0)
  }
}
