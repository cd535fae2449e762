/**
 The machine carries out what code means, in a number of steps known beforehand.
 */
module Execution {
  import opened Links
  import opened Script
  import opened Machine

  lemma {:induction false} StepsAdd(program: seq<Function>, s: State, a: nat, b: nat)
    ensures Steps(program, s, a + b) == Steps(program, Steps(program, s, a), b)
    decreases a
  {
    if a > 0 {
      StepsAdd(program, Step(program, s), a - 1, b);
    }
  }

  // `frame` stands at `code`, the rest of its function.
  ghost predicate At(frame: Frame, code: Function) {
    frame.cursor < |frame.code| && frame.code[frame.cursor..] == code
  }

  function Advance(frame: Frame, locals: map<nat, Value>): Frame {
    Frame(frame.code, frame.cursor + 1, locals)
  }

  // The return stack while the opcode at the cursor is executed.
  function Above(base: seq<Frame>, frame: Frame): seq<Frame> {
    if frame.Finished() then base else base + [frame]
  }

  lemma AdvanceAt(frame: Frame, code: Function, locals: map<nat, Value>)
    requires At(frame, code)
    ensures code != [] && frame.code[frame.cursor] == code[0]
    ensures code[1..] == [] <==> Advance(frame, locals).Finished()
    ensures code[1..] != [] ==> At(Advance(frame, locals), code[1..])
  {
    assert frame.code[frame.cursor..][1..] == frame.code[frame.cursor + 1..];
  }

  // One opcode other than `Apply`, and one `Apply`.
  lemma StepAt(program: seq<Function>, base: seq<Frame>, frame: Frame, code: Function, w: World)
    requires At(frame, code)
    ensures Step(program, Running(base + [frame], w))
         == Execute(program, base, Advance(frame, frame.locals), w, code[0])
  {
    AdvanceAt(frame, code, frame.locals);
    var calls := base + [frame];
    assert calls[..|calls| - 1] == base;
  }

  lemma {:induction false} RunSteps(
    program: seq<Function>, bound: nat, base: seq<Frame>, frame: Frame, code: Function, w: World)
    requires At(frame, code)
    requires Run(program, bound, code, frame.locals, w).Done?
    ensures var o := Run(program, bound, code, frame.locals, w);
            Steps(program, Running(base + [frame], w), o.steps) == Running(base, o.world)
    decreases bound, |code|, 0
  {
    hide NewNode, ApplyPrim, ApplyValue, Invoke, Call, Step, Steps;
    var locals := frame.locals;
    AdvanceAt(frame, code, locals);
    StepAt(program, base, frame, code, w);
    var s := Running(base + [frame], w);
    match code[0]
    case Literal(v) =>
      RunRest(program, bound, base, Advance(frame, locals), code[1..], w.Push(v));
      StepsFirst(program, s, Run(program, bound, code[1..], locals, w.Push(v)).steps);
    case GetVariable(i) =>
      RunRest(program, bound, base, Advance(frame, locals), code[1..], w.Push(locals[i]));
      StepsFirst(program, s, Run(program, bound, code[1..], locals, w.Push(locals[i])).steps);
    case SetVariable(i) =>
      AdvanceAt(frame, code, locals[i := w.Top()]);
      RunRest(program, bound, base, Advance(frame, locals[i := w.Top()]), code[1..], w.Pop());
      StepsFirst(program, s, Run(program, bound, code[1..], locals[i := w.Top()], w.Pop()).steps);
    case Apply =>
      var o := Invoke(program, bound, w.Pop(), w.Top());
      InvokeSteps(program, bound, Above(base, Advance(frame, locals)), w.Pop(), w.Top());
      RunRest(program, bound, base, Advance(frame, locals), code[1..], o.world);
      var rest := Run(program, bound, code[1..], locals, o.world);
      StepsAdd(program, Step(program, s), o.steps, rest.steps);
      StepsFirst(program, s, o.steps + rest.steps);
  }

  lemma StepsFirst(program: seq<Function>, s: State, k: nat)
    ensures Steps(program, s, k + 1) == Steps(program, Step(program, s), k)
  {
  }

  lemma {:induction false} RunRest(
    program: seq<Function>, bound: nat, base: seq<Frame>, frame: Frame, code: Function, w: World)
    requires if code == [] then frame.Finished() else At(frame, code)
    requires Run(program, bound, code, frame.locals, w).Done?
    ensures var o := Run(program, bound, code, frame.locals, w);
            Steps(program, Running(Above(base, frame), w), o.steps) == Running(base, o.world)
    decreases bound, |code|, 1
  {
    if code != [] {
      RunSteps(program, bound, base, frame, code, w);
    }
  }

  lemma {:induction false} InvokeSteps(
    program: seq<Function>, bound: nat, calls: seq<Frame>, w: World, target: Value)
    requires Invoke(program, bound, w, target).Done?
    ensures var o := Invoke(program, bound, w, target);
            Steps(program, ApplyValue(program, calls, w, target), o.steps) == Running(calls, o.world)
    decreases bound, 0, 0
  {
    if target.FunctionValue? {
      CallSteps(program, target.index, calls, w);
    }
  }

  // From a fresh frame on `base` the machine gets back to `base`, in exactly the steps counted.
  lemma {:induction false} CallSteps(program: seq<Function>, f: nat, base: seq<Frame>, w: World)
    requires f < |program| && Call(program, f, w).Done?
    ensures var o := Call(program, f, w);
            Steps(program, Running(base + [NewFrame(program[f])], w), o.steps) == Running(base, o.world)
    decreases f, |program[f]|, 1
  {
    var frame := NewFrame(program[f]);
    if program[f] == [] {
      var calls := base + [frame];
      assert calls[..|calls| - 1] == base;
      assert Steps(program, Running(calls, w), 1) == Steps(program, Step(program, Running(calls, w)), 0);
    } else {
      assert frame.code[frame.cursor..] == program[f];
      RunSteps(program, f, base, frame, program[f], w);
    }
  }

  // ----- Compiled code always stops, after a number of steps that no value can change -----

  // A callable is applied as soon as it is pushed, functions are applied only once they exist, and nothing
  // else is ever applied.
  predicate Compiled(bound: nat, code: Function)
    decreases |code|
  {
    code == [] ||
    match code[0]
    case Apply => false
    case Literal(v) =>
      if v.Callable()
      then |code| >= 2 && code[1] == Apply && (v.FunctionValue? ==> v.index < bound) && Compiled(bound, code[2..])
      else Compiled(bound, code[1..])
    case _ => Compiled(bound, code[1..])
  }

  predicate CompiledProgram(program: seq<Function>) {
    forall f | 0 <= f < |program| :: Compiled(f, program[f])
  }

  // A local is read only after it was set; `known` are those already set.
  predicate Assigned(known: set<nat>, code: Function)
    decreases |code|
  {
    code == [] ||
    match code[0]
    case GetVariable(i) => i in known && Assigned(known, code[1..])
    case SetVariable(i) => Assigned(known + {i}, code[1..])
    case _ => Assigned(known, code[1..])
  }

  // The opcodes of `code` with every function inlined; an empty function counts one.
  function Inlined(program: seq<Function>, bound: nat, code: Function): nat
    decreases bound, |code|
  {
    if code == [] then 0
    else if |code| >= 2 && code[0].Literal? && code[0].value.FunctionValue? && code[1] == Apply
      && code[0].value.index < bound && code[0].value.index < |program|
    then 2 + InlinedCall(program, code[0].value.index) + Inlined(program, bound, code[2..])
    else 1 + Inlined(program, bound, code[1..])
  }

  function InlinedCall(program: seq<Function>, f: nat): nat
    requires f < |program|
    decreases f, |program[f]| + 1
  {
    if program[f] == [] then 1 else Inlined(program, f, program[f])
  }

  // When `Run` counts to the end, it counts all the inlined opcodes; when it gets stuck, no more than these.
  ghost predicate Counted(o: Outcome, n: nat) {
    match o
    case Done(_, _, steps) => steps == n
    case Stuck(steps) => steps <= n
  }

  lemma {:induction false} RunCounted(
    program: seq<Function>, bound: nat, code: Function, locals: map<nat, Value>, w: World)
    requires CompiledProgram(program) && Compiled(bound, code) && bound <= |program|
    ensures Counted(Run(program, bound, code, locals, w), Inlined(program, bound, code))
    decreases bound, |code|, 1
  {
    if code != [] {
      match code[0]
      case Literal(v) =>
        if v.Callable() {
          RunCountedApply(program, bound, code, locals, w);
        } else {
          RunCounted(program, bound, code[1..], locals, w.Push(v));
        }
      case GetVariable(i) =>
        if i in locals {
          RunCounted(program, bound, code[1..], locals, w.Push(locals[i]));
        }
      case SetVariable(i) =>
        if w.stack != [] {
          RunCounted(program, bound, code[1..], locals[i := w.Top()], w.Pop());
        }
    }
  }

  lemma RunLiteralApply(
    program: seq<Function>, bound: nat, code: Function, locals: map<nat, Value>, w: World)
    requires |code| >= 2 && code[0].Literal? && code[1] == Apply
    ensures Run(program, bound, code, locals, w)
         == var o := Invoke(program, bound, w, code[0].value);
            if o.Stuck? then Stuck(o.steps + 2)
            else AddSteps(Run(program, bound, code[2..], locals, o.world), o.steps + 2)
  {
    var pushed := w.Push(code[0].value);
    assert pushed.Pop() == w && pushed.Top() == code[0].value;
    assert code[1..][1..] == code[2..];
  }

  lemma {:induction false} RunCountedApply(
    program: seq<Function>, bound: nat, code: Function, locals: map<nat, Value>, w: World)
    requires CompiledProgram(program) && Compiled(bound, code) && bound <= |program|
    requires code != [] && code[0].Literal? && code[0].value.Callable()
    ensures Counted(Run(program, bound, code, locals, w), Inlined(program, bound, code))
    decreases bound, |code|, 0
  {
    var v := code[0].value;
    RunLiteralApply(program, bound, code, locals, w);
    if v.FunctionValue? {
      CallCounted(program, v.index, w);
    } else {
      assert code[1..][1..] == code[2..];
    }
    var o := Invoke(program, bound, w, v);
    if o.Done? {
      RunCounted(program, bound, code[2..], locals, o.world);
    }
  }

  lemma {:induction false} CallCounted(program: seq<Function>, f: nat, w: World)
    requires CompiledProgram(program) && f < |program|
    ensures Counted(Call(program, f, w), InlinedCall(program, f))
    decreases f, |program[f]|, 2
  {
    if program[f] != [] {
      RunCounted(program, f, program[f], map[], w);
    }
  }

  // Getting stuck is the machine crashing: the bound on calls never gets in the way of compiled code.
  lemma {:induction false} RunCrash(
    program: seq<Function>, bound: nat, base: seq<Frame>, frame: Frame, code: Function, w: World)
    requires CompiledProgram(program) && Compiled(bound, code) && bound <= |program|
    requires At(frame, code) && Run(program, bound, code, frame.locals, w).Stuck?
    ensures Steps(program, Running(base + [frame], w), Run(program, bound, code, frame.locals, w).steps) == Crashed
    decreases bound, |code|, 1
  {
    var locals := frame.locals;
    AdvanceAt(frame, code, locals);
    StepAt(program, base, frame, code, w);
    match code[0]
    case Literal(v) =>
      if v.Callable() {
        RunCrashApply(program, bound, base, frame, code, w, Running(base + [frame], w),
                      Run(program, bound, code, locals, w).steps);
      } else {
        RunCrash(program, bound, base, Advance(frame, locals), code[1..], w.Push(v));
      }
    case GetVariable(i) =>
      if i in locals {
        RunCrash(program, bound, base, Advance(frame, locals), code[1..], w.Push(locals[i]));
      } else {
        assert Steps(program, Crashed, 0) == Crashed;
      }
    case SetVariable(i) =>
      if w.stack != [] {
        AdvanceAt(frame, code, locals[i := w.Top()]);
        RunCrash(program, bound, base, Advance(frame, locals[i := w.Top()]), code[1..], w.Pop());
      } else {
        assert Steps(program, Crashed, 0) == Crashed;
      }
  }

  lemma {:induction false} RunCrashApply(
    program: seq<Function>, bound: nat, base: seq<Frame>, frame: Frame, code: Function, w: World, s: State, k: nat)
    requires CompiledProgram(program) && bound <= |program| && |code| >= 2
    requires code[0].Literal? && code[1] == Apply && Compiled(bound, code[2..])
    requires var v := code[0].value; v.Callable() && (v.FunctionValue? ==> v.index < bound)
    requires At(frame, code) && Run(program, bound, code, frame.locals, w) == Stuck(k)
    requires s == Running(base + [frame], w)
    ensures Steps(program, s, k) == Crashed
    decreases bound, |code|, 0
  {
    hide CompiledProgram, ApplyValue, Invoke, Call, NewNode, ApplyPrim, Step, Steps;
    var v := code[0].value;
    RunLiteralApply(program, bound, code, frame.locals, w);
    StepsLiteralApply(program, base, frame, code, w, k);
    var frame2 := Advance(Advance(frame, frame.locals), frame.locals);
    var s2 := ApplyValue(program, Above(base, frame2), w, v);
    assert Steps(program, s, k) == Steps(program, s2, k - 2);
    AppliedCrash(program, bound, base, frame2, code[2..], w, v, s2, k - 2);
  }

  lemma {:induction false} AppliedCrash(
    program: seq<Function>, bound: nat, base: seq<Frame>, frame: Frame, code: Function, w: World, v: Value,
    s: State, k: nat)
    requires CompiledProgram(program) && Compiled(bound, code) && bound <= |program|
    requires v.Callable() && (v.FunctionValue? ==> v.index < bound)
    requires if code == [] then frame.Finished() else At(frame, code)
    requires var o := Invoke(program, bound, w, v);
             if o.Stuck? then k == o.steps
             else Run(program, bound, code, frame.locals, o.world).Stuck?
                  && k == Run(program, bound, code, frame.locals, o.world).steps + o.steps
    requires s == ApplyValue(program, Above(base, frame), w, v)
    ensures Steps(program, s, k) == Crashed
    decreases bound, |code|, 3
  {
    hide NewNode, ApplyPrim, ApplyValue, Invoke, Call, Run, Step, Steps, Compiled;
    if Invoke(program, bound, w, v).Stuck? {
      InvokeCrash(program, bound, Above(base, frame), w, v);
    } else {
      RestCrash(program, bound, base, frame, code, w, v);
    }
  }

  lemma {:induction false} RestCrash(
    program: seq<Function>, bound: nat, base: seq<Frame>, frame: Frame, code: Function, w: World, v: Value)
    requires CompiledProgram(program) && Compiled(bound, code) && bound <= |program|
    requires if code == [] then frame.Finished() else At(frame, code)
    requires Invoke(program, bound, w, v).Done?
    requires Run(program, bound, code, frame.locals, Invoke(program, bound, w, v).world).Stuck?
    ensures Steps(program, ApplyValue(program, Above(base, frame), w, v),
                  Invoke(program, bound, w, v).steps
                  + Run(program, bound, code, frame.locals, Invoke(program, bound, w, v).world).steps) == Crashed
    decreases bound, |code|, 2
  {
    var o := Invoke(program, bound, w, v);
    var rest := Run(program, bound, code, frame.locals, o.world);
    InvokeSteps(program, bound, Above(base, frame), w, v);
    RunCrash(program, bound, base, frame, code, o.world);
    StepsAdd(program, ApplyValue(program, Above(base, frame), w, v), o.steps, rest.steps);
  }

  lemma {:induction false} InvokeCrash(
    program: seq<Function>, bound: nat, calls: seq<Frame>, w: World, target: Value)
    requires CompiledProgram(program) && bound <= |program| && target.Callable()
    requires target.FunctionValue? ==> target.index < bound
    requires Invoke(program, bound, w, target).Stuck?
    ensures Steps(program, ApplyValue(program, calls, w, target), Invoke(program, bound, w, target).steps) == Crashed
    decreases bound, 0, 0
  {
    if target.FunctionValue? {
      CallCrash(program, target.index, calls, w);
    }
  }

  lemma StepsLiteralApply(
    program: seq<Function>, base: seq<Frame>, frame: Frame, code: Function, w: World, k: nat)
    requires At(frame, code) && |code| >= 2 && code[0].Literal? && code[1] == Apply && k >= 2
    ensures var frame2 := Advance(Advance(frame, frame.locals), frame.locals);
            && Steps(program, Running(base + [frame], w), k)
               == Steps(program, ApplyValue(program, Above(base, frame2), w, code[0].value), k - 2)
            && (if code[2..] == [] then frame2.Finished() else At(frame2, code[2..]))
  {
    TwoSteps(program, base, frame, code, w);
    StepsTwo(program, Running(base + [frame], w), k - 2);
  }

  lemma StepsTwo(program: seq<Function>, s: State, k: nat)
    ensures Steps(program, s, k + 2) == Steps(program, Step(program, Step(program, s)), k)
  {
  }

  lemma TwoSteps(program: seq<Function>, base: seq<Frame>, frame: Frame, code: Function, w: World)
    requires At(frame, code) && |code| >= 2 && code[0].Literal? && code[1] == Apply
    ensures var frame2 := Advance(Advance(frame, frame.locals), frame.locals);
            && Step(program, Step(program, Running(base + [frame], w)))
               == ApplyValue(program, Above(base, frame2), w, code[0].value)
            && (if code[2..] == [] then frame2.Finished() else At(frame2, code[2..]))
  {
    var locals, v := frame.locals, code[0].value;
    var frame1 := Advance(frame, locals);
    AdvanceAt(frame, code, locals);
    StepAt(program, base, frame, code, w);
    AdvanceAt(frame1, code[1..], locals);
    StepAt(program, base, frame1, code[1..], w.Push(v));
    assert w.Push(v).Pop() == w && w.Push(v).Top() == v;
    assert code[1..][1..] == code[2..];
  }

  lemma {:induction false} CallCrash(program: seq<Function>, f: nat, base: seq<Frame>, w: World)
    requires CompiledProgram(program) && f < |program| && Call(program, f, w).Stuck?
    ensures Steps(program, Running(base + [NewFrame(program[f])], w), Call(program, f, w).steps) == Crashed
    decreases f, |program[f]|, 2
  {
    var frame := NewFrame(program[f]);
    assert frame.code[frame.cursor..] == program[f];
    RunCrash(program, f, base, frame, program[f], w);
  }

  // Every call of a compiled function ends: it is back at its base after exactly the inlined number of steps,
  // or it has crashed by then.
  lemma CallEnds(program: seq<Function>, f: nat, base: seq<Frame>, w: World)
    requires CompiledProgram(program) && f < |program|
    ensures Steps(program, Running(base + [NewFrame(program[f])], w), InlinedCall(program, f))
         == if Call(program, f, w).Done? then Running(base, Call(program, f, w).world) else Crashed
  {
    CallCounted(program, f, w);
    var s0 := Running(base + [NewFrame(program[f])], w);
    match Call(program, f, w)
    case Done(_, _, _) => CallSteps(program, f, base, w);
    case Stuck(k) =>
      CallCrash(program, f, base, w);
      StepsAdd(program, s0, k, InlinedCall(program, f) - k);
      CrashedForever(program, InlinedCall(program, f) - k);
  }

  lemma {:induction false} CrashedForever(program: seq<Function>, k: nat)
    ensures Steps(program, Crashed, k) == Crashed
    decreases k
  {
    if k > 0 {
      CrashedForever(program, k - 1);
    }
  }

  // Whether a run comes to read a local that was never set, here or in a function it calls.
  predicate ReadsUnset(program: seq<Function>, bound: nat, code: Function, locals: map<nat, Value>, w: World)
    decreases bound, |code|
  {
    code != [] &&
    match code[0]
    case Literal(v) => ReadsUnset(program, bound, code[1..], locals, w.Push(v))
    case GetVariable(i) => i !in locals || ReadsUnset(program, bound, code[1..], locals, w.Push(locals[i]))
    case SetVariable(i) =>
      w.stack != [] && ReadsUnset(program, bound, code[1..], locals[i := w.Top()], w.Pop())
    case Apply =>
      w.stack != [] &&
      var o := Invoke(program, bound, w.Pop(), w.Top());
      || (w.Top().FunctionValue? && w.Top().index < bound && w.Top().index < |program|
          && ReadsUnset(program, w.Top().index, program[w.Top().index], map[], w.Pop()))
      || (o.Done? && ReadsUnset(program, bound, code[1..], locals, o.world))
  }

  lemma {:induction false} AssignedReadsSet(
    program: seq<Function>, bound: nat, code: Function, locals: map<nat, Value>, w: World, known: set<nat>)
    requires forall f :: 0 <= f < |program| ==> Assigned({}, program[f])
    requires Assigned(known, code) && known <= locals.Keys
    ensures !ReadsUnset(program, bound, code, locals, w)
    decreases bound, |code|
  {
    if code != [] {
      match code[0]
      case Literal(v) => AssignedReadsSet(program, bound, code[1..], locals, w.Push(v), known);
      case GetVariable(i) => AssignedReadsSet(program, bound, code[1..], locals, w.Push(locals[i]), known);
      case SetVariable(i) =>
        if w.stack != [] {
          AssignedReadsSet(program, bound, code[1..], locals[i := w.Top()], w.Pop(), known + {i});
        }
      case Apply =>
        if w.stack != [] {
          var o := Invoke(program, bound, w.Pop(), w.Top());
          if w.Top().FunctionValue? && w.Top().index < bound && w.Top().index < |program| {
            AssignedReadsSet(program, w.Top().index, program[w.Top().index], map[], w.Pop(), {});
          }
          if o.Done? {
            AssignedReadsSet(program, bound, code[1..], locals, o.world, known);
          }
        }
    }
  }
}
