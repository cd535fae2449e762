/**
 The compiler: tokens to opcodes, with named locals turned into indices.
 */
module Compiler {
  import opened Links
  import opened Script
  import opened Machine
  import opened Execution

  datatype Kind = Generic | Integer | StringLiteral

  datatype Token = Token(kind: Kind, text: string, number: int)

  type Names = map<string, Value>
  type Indices = map<string, nat>

  datatype Piece = Piece(opcodes: Function, locals: Indices, rest: seq<Token>)

  // ----- What is compiled to what -----

  // The names up to the closing parenthesis, and the tokens after it.
  function TakeNames(tokens: seq<Token>): Option<(seq<string>, seq<Token>)> {
    if tokens == [] then None
    else if tokens[0].text == ")" then Some(([], tokens[1..]))
    else
      match TakeNames(tokens[1..])
      case None => None
      case Some((names, rest)) => Some(([tokens[0].text] + names, rest))
  }

  function IndexOf(locals: Indices, name: string): nat {
    if name in locals then locals[name] else |locals|
  }

  // The last name takes the top of the stack.
  function BindOpcodes(names: seq<string>, locals: Indices): (Function, Indices)
    decreases |names|
  {
    if names == [] then ([], locals)
    else
      var name := names[|names| - 1];
      var i := IndexOf(locals, name);
      var (opcodes, locals') := BindOpcodes(names[..|names| - 1], locals[name := i]);
      ([SetVariable(i)] + opcodes, locals')
  }

  function WordOpcodes(value: Value): Function {
    if value.Callable() then [Literal(value), Apply] else [Literal(value)]
  }

  // One word, number or list of names.
  function CompileOne(names: Names, tokens: seq<Token>, locals: Indices): Option<Piece>
    requires tokens != []
  {
    var token := tokens[0];
    if token.kind.Integer? then Some(Piece([Literal(Int(token.number))], locals, tokens[1..]))
    else if token.text == "(" then
      match TakeNames(tokens[1..])
      case None => None
      case Some((bound, rest)) =>
        var (opcodes, locals') := BindOpcodes(bound, locals);
        Some(Piece(opcodes, locals', rest))
    else if token.text in locals then Some(Piece([GetVariable(locals[token.text])], locals, tokens[1..]))
    else if token.text in names then Some(Piece(WordOpcodes(names[token.text]), locals, tokens[1..]))
    else None
  }

  lemma TakeNamesShorter(tokens: seq<Token>)
    requires TakeNames(tokens).Some?
    ensures |TakeNames(tokens).value.1| < |tokens|
  {
  }

  lemma CompileOneShorter(names: Names, tokens: seq<Token>, locals: Indices)
    requires tokens != [] && CompileOne(names, tokens, locals).Some?
    ensures |CompileOne(names, tokens, locals).value.rest| < |tokens|
  {
    if !tokens[0].kind.Integer? && tokens[0].text == "(" {
      TakeNamesShorter(tokens[1..]);
    }
  }

  // Everything up to `end`.
  function CompileBody(names: Names, tokens: seq<Token>, locals: Indices): Option<Piece>
    decreases |tokens|
  {
    if tokens == [] then None
    else if tokens[0].text == "end" then Some(Piece([], locals, tokens[1..]))
    else
      match CompileOne(names, tokens, locals)
      case None => None
      case Some(one) =>
        CompileOneShorter(names, tokens, locals);
        match CompileBody(names, one.rest, one.locals)
        case None => None
        case Some(more) => Some(Piece(one.opcodes + more.opcodes, more.locals, more.rest))
  }

  // ----- What the tokens mean, without compiling -----

  // A function as it was written, with the names that were defined at that time.
  datatype Definition = Definition(names: Names, tokens: seq<Token>)

  function BindNames(names: seq<string>, env: Names, w: World): Option<(Names, World)>
    decreases |names|
  {
    if names == [] then Some((env, w))
    else if w.stack == [] then None
    else BindNames(names[..|names| - 1], env[names[|names| - 1] := w.Top()], w.Pop())
  }

  function Interpret(source: seq<Definition>, bound: nat, names: Names, tokens: seq<Token>, env: Names, w: World)
    : Option<World>
    decreases bound, |tokens|
  {
    if tokens == [] then None
    else if tokens[0].text == "end" then Some(w)
    else if tokens[0].kind.Integer? then
      Interpret(source, bound, names, tokens[1..], env, w.Push(Int(tokens[0].number)))
    else if tokens[0].text == "(" then
      match TakeNames(tokens[1..])
      case None => None
      case Some((formals, rest)) =>
        TakeNamesShorter(tokens[1..]);
        match BindNames(formals, env, w)
        case None => None
        case Some((env', w')) => Interpret(source, bound, names, rest, env', w')
    else if tokens[0].text in env then
      Interpret(source, bound, names, tokens[1..], env, w.Push(env[tokens[0].text]))
    else if tokens[0].text in names then
      match Word(source, bound, w, names[tokens[0].text])
      case None => None
      case Some(w') => Interpret(source, bound, names, tokens[1..], env, w')
    else None
  }

  // A word that is not a local: a function is interpreted from its own tokens.
  function Word(source: seq<Definition>, bound: nat, w: World, value: Value): Option<World>
    decreases bound, 0
  {
    match value
    case CtorValue(ctor) => NewNode(w, ctor)
    case PrimValue(p) => ApplyPrim(w, p)
    case FunctionValue(g) =>
      if g < bound && g < |source|
      then Interpret(source, g, source[g].names, source[g].tokens, map[], w)
      else None
    case _ => Some(w.Push(value))
  }

  // ----- Compiling and running means interpreting -----

  // `program` is what the definitions compile to, and they use only what was defined before them.
  ghost predicate CompiledFrom(source: seq<Definition>, program: seq<Function>) {
    && |program| == |source|
    && forall f :: 0 <= f < |source| ==>
         && CompileBody(source[f].names, source[f].tokens, map[]).Some?
         && CompileBody(source[f].names, source[f].tokens, map[]).value.opcodes == program[f]
         && EarlierOnly(source[f].names, f)
  }

  ghost predicate EarlierOnly(names: Names, bound: nat) {
    forall name :: name in names && names[name].FunctionValue? ==> names[name].index < bound
  }

  ghost predicate Numbered(locals: Indices) {
    && (forall name :: name in locals ==> locals[name] < |locals|)
    && (forall a, b :: a in locals && b in locals && locals[a] == locals[b] ==> a == b)
  }

  // The frame's variables hold the environment.
  ghost predicate Agree(locals: Indices, env: Names, vars: map<nat, Value>) {
    && env.Keys == locals.Keys
    && forall name :: name in locals ==> locals[name] in vars && vars[locals[name]] == env[name]
  }

  function Result(o: Outcome): Option<World> {
    if o.Done? then Some(o.world) else None
  }

  lemma {:induction false} RunConcat(
    program: seq<Function>, bound: nat, a: Function, b: Function, vars: map<nat, Value>, w: World)
    ensures Run(program, bound, a + b, vars, w)
         == (var o := Run(program, bound, a, vars, w);
             if o.Stuck? then o else AddSteps(Run(program, bound, b, o.locals, o.world), o.steps))
    decreases |a|
  {
    if a == [] {
      assert a + b == b;
    } else {
      assert (a + b)[1..] == a[1..] + b;
      match a[0]
      case Literal(v) => RunConcat(program, bound, a[1..], b, vars, w.Push(v));
      case GetVariable(i) =>
        if i in vars {
          RunConcat(program, bound, a[1..], b, vars, w.Push(vars[i]));
        }
      case SetVariable(i) =>
        if w.stack != [] {
          RunConcat(program, bound, a[1..], b, vars[i := w.Top()], w.Pop());
        }
      case Apply =>
        if w.stack != [] {
          var o := Invoke(program, bound, w.Pop(), w.Top());
          if o.Done? {
            RunConcat(program, bound, a[1..], b, vars, o.world);
          }
        }
    }
  }

  lemma NumberedExtend(locals: Indices, name: string)
    requires Numbered(locals)
    ensures Numbered(locals[name := IndexOf(locals, name)])
  {
    if name in locals {
      assert locals[name := IndexOf(locals, name)] == locals;
    } else {
      ExtendSize(locals, name);
    }
  }

  lemma ExtendSize(locals: Indices, name: string)
    requires name !in locals
    ensures |locals[name := |locals|]| == |locals| + 1
  {
    var more := locals[name := |locals|];
    assert more.Keys == locals.Keys + {name};
    assert |more| == |more.Keys| && |locals| == |locals.Keys|;
  }

  lemma AgreeExtend(locals: Indices, env: Names, vars: map<nat, Value>, name: string, v: Value)
    requires Numbered(locals) && Agree(locals, env, vars)
    ensures Agree(locals[name := IndexOf(locals, name)], env[name := v], vars[IndexOf(locals, name) := v])
  {
  }

  lemma {:induction false} BindAgrees(
    program: seq<Function>, bound: nat, names: seq<string>, locals: Indices, env: Names,
    vars: map<nat, Value>, w: World)
    requires Numbered(locals) && Agree(locals, env, vars)
    ensures Numbered(BindOpcodes(names, locals).1)
    ensures var o := Run(program, bound, BindOpcodes(names, locals).0, vars, w);
            var b := BindNames(names, env, w);
            if b.None? then o.Stuck?
            else o.Done? && o.world == b.value.1 && Agree(BindOpcodes(names, locals).1, b.value.0, o.locals)
    decreases |names|
  {
    hide Invoke, Call, ApplyPrim, NewNode;
    if names != [] {
      var name := names[|names| - 1];
      var i := IndexOf(locals, name);
      NumberedExtend(locals, name);
      var (opcodes, _) := BindOpcodes(names[..|names| - 1], locals[name := i]);
      assert ([SetVariable(i)] + opcodes)[1..] == opcodes;
      if w.stack != [] {
        AgreeExtend(locals, env, vars, name, w.Top());
        BindAgrees(program, bound, names[..|names| - 1], locals[name := i], env[name := w.Top()],
                   vars[i := w.Top()], w.Pop());
      } else {
        BindNumbered(names[..|names| - 1], locals[name := i]);
      }
    }
  }

  lemma {:induction false} BindNumbered(names: seq<string>, locals: Indices)
    requires Numbered(locals)
    ensures Numbered(BindOpcodes(names, locals).1)
    decreases |names|
  {
    if names != [] {
      NumberedExtend(locals, names[|names| - 1]);
      BindNumbered(names[..|names| - 1], locals[names[|names| - 1] := IndexOf(locals, names[|names| - 1])]);
    }
  }

  lemma {:induction false} WordAgrees(
    source: seq<Definition>, program: seq<Function>, bound: nat, value: Value, vars: map<nat, Value>, w: World)
    requires CompiledFrom(source, program) && bound <= |program|
    requires value.FunctionValue? ==> value.index < bound
    ensures Result(Run(program, bound, WordOpcodes(value), vars, w)) == Word(source, bound, w, value)
    ensures Run(program, bound, WordOpcodes(value), vars, w).Done? ==>
              Run(program, bound, WordOpcodes(value), vars, w).locals == vars
    decreases bound, 0
  {
    if value.Callable() {
      RunLiteralApply(program, bound, WordOpcodes(value), vars, w);
      assert WordOpcodes(value)[2..] == [];
      if value.FunctionValue? {
        CallAgrees(source, program, value.index, w);
      }
    } else {
      assert WordOpcodes(value)[1..] == [];
    }
  }

  lemma {:induction false} CallAgrees(source: seq<Definition>, program: seq<Function>, f: nat, w: World)
    requires CompiledFrom(source, program) && f < |program|
    ensures Result(Call(program, f, w)) == Interpret(source, f, source[f].names, source[f].tokens, map[], w)
    decreases f, |source[f].tokens| + 1
  {
    BodyAgrees(source, program, f, source[f].names, source[f].tokens, map[], map[], map[], w);
  }

  // The main theorem: the opcodes of a body, run from a frame that agrees with the environment, do what the
  // tokens mean.
  lemma {:induction false} BodyAgrees(
    source: seq<Definition>, program: seq<Function>, bound: nat, names: Names, tokens: seq<Token>,
    locals: Indices, env: Names, vars: map<nat, Value>, w: World)
    requires CompiledFrom(source, program) && bound <= |program| && EarlierOnly(names, bound)
    requires CompileBody(names, tokens, locals).Some?
    requires Numbered(locals) && Agree(locals, env, vars)
    ensures Result(Run(program, bound, CompileBody(names, tokens, locals).value.opcodes, vars, w))
         == Interpret(source, bound, names, tokens, env, w)
    decreases bound, |tokens|, 1
  {
    hide Invoke, Call, ApplyPrim, NewNode;
    if tokens[0].text != "end" {
      var one := CompileOne(names, tokens, locals).value;
      var more := CompileBody(names, one.rest, one.locals).value;
      CompileOneShorter(names, tokens, locals);
      RunConcat(program, bound, one.opcodes, more.opcodes, vars, w);
      var token := tokens[0];
      if token.kind.Integer? {
        assert one.opcodes[1..] == [];
        BodyAgrees(source, program, bound, names, one.rest, locals, env, vars, w.Push(Int(token.number)));
      } else if token.text == "(" {
        BindBodyAgrees(source, program, bound, names, tokens, locals, env, vars, w);
      } else if token.text in locals {
        assert one.opcodes[1..] == [];
        BodyAgrees(source, program, bound, names, one.rest, locals, env, vars, w.Push(env[token.text]));
      } else {
        WordAgrees(source, program, bound, names[token.text], vars, w);
        var o := Run(program, bound, one.opcodes, vars, w);
        if o.Done? {
          BodyAgrees(source, program, bound, names, one.rest, locals, env, vars, o.world);
        }
      }
    }
  }

  lemma {:induction false} BindBodyAgrees(
    source: seq<Definition>, program: seq<Function>, bound: nat, names: Names, tokens: seq<Token>,
    locals: Indices, env: Names, vars: map<nat, Value>, w: World)
    requires CompiledFrom(source, program) && bound <= |program| && EarlierOnly(names, bound)
    requires tokens != [] && !tokens[0].kind.Integer? && tokens[0].text == "("
    requires CompileOne(names, tokens, locals).Some?
    requires var one := CompileOne(names, tokens, locals).value;
             CompileBody(names, one.rest, one.locals).Some?
    requires Numbered(locals) && Agree(locals, env, vars)
    ensures Interpret(source, bound, names, tokens, env, w)
         == (var one := CompileOne(names, tokens, locals).value;
             var more := CompileBody(names, one.rest, one.locals).value;
             var o := Run(program, bound, one.opcodes, vars, w);
             if o.Stuck? then None else Result(Run(program, bound, more.opcodes, o.locals, o.world)))
    decreases bound, |tokens|, 0
  {
    CompileOneShorter(names, tokens, locals);
    var one := CompileOne(names, tokens, locals).value;
    var (formals, rest) := TakeNames(tokens[1..]).value;
    BindAgrees(program, bound, formals, locals, env, vars, w);
    var o := Run(program, bound, one.opcodes, vars, w);
    if o.Done? {
      var b := BindNames(formals, env, w).value;
      BodyAgrees(source, program, bound, names, rest, one.locals, b.0, o.locals, b.1);
    }
  }

  // ----- The shape of compiled code -----

  lemma {:induction false} CompiledConcat(bound: nat, a: Function, b: Function)
    requires Compiled(bound, a) && Compiled(bound, b)
    ensures Compiled(bound, a + b)
    decreases |a|
  {
    if a == [] {
      assert a + b == b;
    } else if a[0].Literal? && a[0].value.Callable() {
      assert (a + b)[2..] == a[2..] + b;
      CompiledConcat(bound, a[2..], b);
    } else {
      assert (a + b)[1..] == a[1..] + b;
      CompiledConcat(bound, a[1..], b);
    }
  }

  // The locals known after a piece of code.
  function Known(known: set<nat>, code: Function): set<nat>
    decreases |code|
  {
    if code == [] then known
    else Known(if code[0].SetVariable? then known + {code[0].index} else known, code[1..])
  }

  lemma {:induction false} AssignedConcat(known: set<nat>, a: Function, b: Function)
    requires Assigned(known, a) && Assigned(Known(known, a), b)
    ensures Assigned(known, a + b)
    decreases |a|
  {
    if a == [] {
      assert a + b == b;
    } else {
      assert (a + b)[1..] == a[1..] + b;
      AssignedConcat(if a[0].SetVariable? then known + {a[0].index} else known, a[1..], b);
    }
  }

  ghost predicate AllIn(locals: Indices, known: set<nat>) {
    forall name :: name in locals ==> locals[name] in known
  }

  lemma {:induction false} BindShape(names: seq<string>, locals: Indices, bound: nat, known: set<nat>)
    requires AllIn(locals, known)
    ensures Compiled(bound, BindOpcodes(names, locals).0) && Assigned(known, BindOpcodes(names, locals).0)
    ensures AllIn(BindOpcodes(names, locals).1, Known(known, BindOpcodes(names, locals).0))
    decreases |names|
  {
    if names != [] {
      var name := names[|names| - 1];
      var i := IndexOf(locals, name);
      var (opcodes, _) := BindOpcodes(names[..|names| - 1], locals[name := i]);
      assert ([SetVariable(i)] + opcodes)[1..] == opcodes;
      BindShape(names[..|names| - 1], locals[name := i], bound, known + {i});
    }
  }

  // Compiled code applies a callable right where it names it, calls only what exists already, and reads no
  // local before setting it.
  lemma {:induction false} BodyShape(names: Names, tokens: seq<Token>, locals: Indices, bound: nat, known: set<nat>)
    requires CompileBody(names, tokens, locals).Some? && EarlierOnly(names, bound) && AllIn(locals, known)
    ensures Compiled(bound, CompileBody(names, tokens, locals).value.opcodes)
    ensures Assigned(known, CompileBody(names, tokens, locals).value.opcodes)
    decreases |tokens|
  {
    if tokens[0].text != "end" {
      var one := CompileOne(names, tokens, locals).value;
      var more := CompileBody(names, one.rest, one.locals).value;
      CompileOneShorter(names, tokens, locals);
      OneShape(names, tokens, locals, bound, known);
      BodyShape(names, one.rest, one.locals, bound, Known(known, one.opcodes));
      CompiledConcat(bound, one.opcodes, more.opcodes);
      AssignedConcat(known, one.opcodes, more.opcodes);
    }
  }

  lemma OneShape(names: Names, tokens: seq<Token>, locals: Indices, bound: nat, known: set<nat>)
    requires tokens != [] && CompileOne(names, tokens, locals).Some?
    requires EarlierOnly(names, bound) && AllIn(locals, known)
    ensures var one := CompileOne(names, tokens, locals).value;
            Compiled(bound, one.opcodes) && Assigned(known, one.opcodes)
            && AllIn(one.locals, Known(known, one.opcodes))
  {
    var one := CompileOne(names, tokens, locals).value;
    if !tokens[0].kind.Integer? && tokens[0].text == "(" {
      BindShape(TakeNames(tokens[1..]).value.0, locals, bound, known);
    } else if |one.opcodes| == 2 {
      var code := one.opcodes;
      assert code[1..] == [Apply] && code[1..][1..] == [] && code[2..] == [];
      assert Known(known, code) == Known(known, code[1..]) == Known(known, []) == known;
    } else {
      assert one.opcodes[1..] == [];
    }
  }

  // What can be interpreted can be compiled: the compiler turns down no program that has a meaning.
  lemma {:induction false} InterpretedCompiles(
    source: seq<Definition>, bound: nat, names: Names, tokens: seq<Token>, locals: Indices, env: Names, w: World)
    requires env.Keys == locals.Keys
    requires Interpret(source, bound, names, tokens, env, w).Some?
    ensures CompileBody(names, tokens, locals).Some?
    decreases |tokens|
  {
    if tokens[0].text != "end" {
      if tokens[0].kind.Integer? {
        InterpretedCompiles(source, bound, names, tokens[1..], locals, env, w.Push(Int(tokens[0].number)));
      } else if tokens[0].text == "(" {
        TakeNamesShorter(tokens[1..]);
        var (formals, rest) := TakeNames(tokens[1..]).value;
        var b := BindNames(formals, env, w).value;
        BindKeys(formals, locals, env, w);
        InterpretedCompiles(source, bound, names, rest, BindOpcodes(formals, locals).1, b.0, b.1);
      } else if tokens[0].text in env {
        InterpretedCompiles(source, bound, names, tokens[1..], locals, env, w.Push(env[tokens[0].text]));
      } else {
        var w' := Word(source, bound, w, names[tokens[0].text]).value;
        InterpretedCompiles(source, bound, names, tokens[1..], locals, env, w');
      }
    }
  }

  lemma {:induction false} BindKeys(names: seq<string>, locals: Indices, env: Names, w: World)
    requires env.Keys == locals.Keys && BindNames(names, env, w).Some?
    ensures BindNames(names, env, w).value.0.Keys == BindOpcodes(names, locals).1.Keys
    decreases |names|
  {
    if names != [] {
      var name := names[|names| - 1];
      BindKeys(names[..|names| - 1], locals[name := IndexOf(locals, name)], env[name := w.Top()], w.Pop());
    }
  }
}
