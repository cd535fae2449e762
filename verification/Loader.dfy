/**
 The loader: it consumes tokens, compiles bodies into function objects, and registers names and rules in a mod.
 */
module Loader {
  import opened Script
  import opened Machine
  import opened Execution
  import opened Compiler
  import opened Net

  // A function while it is being compiled.
  class Code {
    var localIndex: Indices
    var opcodes: Function

    constructor ()
      ensures localIndex == map[] && opcodes == []
    {
      localIndex, opcodes := map[], [];
    }
  }

  // The rules of `rules` that mention the constructor, in the order of their declaration.
  function RulesOf(rules: seq<Rule>, ctor: Ctor): seq<Rule> {
    if rules == [] then []
    else
      var last := rules[|rules| - 1];
      RulesOf(rules[..|rules| - 1], ctor) + if last.left == ctor || last.right == ctor then [last] else []
  }

  class Mod {
    var values: Names
    var program: seq<Function>
    var ruleArrays: map<Ctor, seq<Rule>>
    ghost var source: seq<Definition>
    ghost var rules: seq<Rule>

    ghost predicate Valid()
      reads this
    {
      && CompiledFrom(source, program)
      && EarlierOnly(values, |program|)
      && (forall rule :: rule in rules ==> rule.body < |program|)
      && (forall ctor: Ctor :: RuleArray(ctor) == RulesOf(rules, ctor))
    }

    function RuleArray(ctor: Ctor): seq<Rule>
      reads this
    {
      if ctor in ruleArrays then ruleArrays[ctor] else []
    }

    constructor ()
      ensures Valid() && values == map[] && program == [] && rules == []
    {
      values, program, ruleArrays, source, rules := map[], [], map[], [], [];
    }

    // `define`: a name is defined once.
    method Define(name: string, value: Value) returns (ok: bool)
      requires Valid() && (value.FunctionValue? ==> value.index < |program|)
      modifies this`values
      ensures Valid()
      ensures ok <==> name !in old(values)
      ensures values == if ok then old(values)[name := value] else old(values)
    {
      ok := name !in values;
      if ok {
        values := values[name := value];
      }
    }

    // A compiled body becomes a function of the mod; no name leads to it yet.
    method AddFunction(code: Code, ghost definition: Definition)
      requires Valid() && definition.names == values
      requires CompileBody(definition.names, definition.tokens, map[]).Some?
      requires CompileBody(definition.names, definition.tokens, map[]).value.opcodes == code.opcodes
      modifies this`program, this`source
      ensures Valid()
      ensures program == old(program) + [code.opcodes] && source == old(source) + [definition]
    {
      program := program + [code.opcodes];
      source := source + [definition];
    }

    // `mod_define_rule`
    method DefineRule(left: Ctor, right: Ctor, body: nat)
      requires Valid() && body < |program|
      modifies this`ruleArrays, this`rules
      ensures Valid() && rules == old(rules) + [Rule(left, right, body)]
    {
      var rule := Rule(left, right, body);
      if left == right {
        ruleArrays := ruleArrays[left := RuleArray(left) + [rule]];
      } else {
        ruleArrays := ruleArrays[left := RuleArray(left) + [rule]][right := RuleArray(right) + [rule]];
      }
      rules := rules + [rule];
      forall ctor: Ctor
        ensures RuleArray(ctor) == RulesOf(rules, ctor)
      {
        assert rules[..|rules| - 1] == old(rules);
        assert old(RuleArray(ctor)) == RulesOf(old(rules), ctor);
      }
    }
  }

  datatype Attempt = Taken | Declined | Failed

  class Loader {
    var tokens: seq<Token>
    const mod: Mod

    constructor (tokens: seq<Token>, mod: Mod)
      ensures this.tokens == tokens && this.mod == mod
    {
      this.tokens, this.mod := tokens, mod;
    }

    method CompileInt(code: Code) returns (done: bool)
      requires tokens != []
      modifies this`tokens, code
      ensures code.localIndex == old(code.localIndex)
      ensures done <==> old(tokens)[0].kind.Integer?
      ensures !done ==> tokens == old(tokens) && code.opcodes == old(code.opcodes)
      ensures done ==> tokens == old(tokens)[1..]
      ensures done ==> code.opcodes == old(code.opcodes) + [Literal(Int(old(tokens)[0].number))]
    {
      var token := tokens[0];
      if !token.kind.Integer? { return false; }
      tokens := tokens[1..];
      code.opcodes := code.opcodes + [Literal(Int(token.number))];
      return true;
    }

    method CompileBind(code: Code) returns (r: Attempt)
      requires tokens != []
      modifies this`tokens, code
      ensures r.Declined? <==> old(tokens)[0].text != "("
      ensures r.Failed? <==> old(tokens)[0].text == "(" && TakeNames(old(tokens)[1..]).None?
      ensures r.Declined? ==>
                tokens == old(tokens) && code.opcodes == old(code.opcodes) && code.localIndex == old(code.localIndex)
      ensures r.Taken? ==>
                var taken := TakeNames(old(tokens)[1..]).value;
                && tokens == taken.1
                && code.opcodes == old(code.opcodes) + BindOpcodes(taken.0, old(code.localIndex)).0
                && code.localIndex == BindOpcodes(taken.0, old(code.localIndex)).1
    {
      if tokens[0].text != "(" { return Declined; }
      tokens := tokens[1..];

      var names: seq<string> := [];
      ghost var start := tokens;
      PrependNone(TakeNames(tokens));
      while true
        invariant TakeNames(start) == Prepend(names, TakeNames(tokens))
        invariant start == old(tokens)[1..]
        invariant code.opcodes == old(code.opcodes) && code.localIndex == old(code.localIndex)
        decreases |tokens|
      {
        if tokens == [] { return Failed; }
        PrependOne(names, tokens);
        var token := tokens[0];
        tokens := tokens[1..];
        if token.text == ")" { break; }
        names := names + [token.text];
      }

      ghost var all := names;
      assert TakeNames(start) == Some((all, tokens));
      while names != []
        invariant TakeNames(start) == Some((all, tokens))
        invariant code.opcodes + BindOpcodes(names, code.localIndex).0
               == old(code.opcodes) + BindOpcodes(all, old(code.localIndex)).0
        invariant BindOpcodes(names, code.localIndex).1 == BindOpcodes(all, old(code.localIndex)).1
        decreases |names|
      {
        BindLast(code.opcodes, names, code.localIndex);
        var name := names[|names| - 1];
        names := names[..|names| - 1];
        if name in code.localIndex {
          code.opcodes := code.opcodes + [SetVariable(code.localIndex[name])];
        } else {
          var index := |code.localIndex|;
          code.localIndex := code.localIndex[name := index];
          code.opcodes := code.opcodes + [SetVariable(index)];
        }
      }
      return Taken;
    }

    method CompileGeneric(code: Code) returns (ok: bool)
      requires tokens != []
      modifies this`tokens, code
      ensures code.localIndex == old(code.localIndex)
      ensures ok <==> old(tokens)[0].text in old(code.localIndex) || old(tokens)[0].text in mod.values
      ensures !ok ==> tokens == old(tokens) && code.opcodes == old(code.opcodes)
      ensures ok ==> tokens == old(tokens)[1..]
      ensures ok ==> code.opcodes == old(code.opcodes) +
                     if old(tokens)[0].text in old(code.localIndex)
                     then [GetVariable(old(code.localIndex)[old(tokens)[0].text])]
                     else WordOpcodes(mod.values[old(tokens)[0].text])
    {
      var token := tokens[0];
      if token.text in code.localIndex {
        tokens := tokens[1..];
        code.opcodes := code.opcodes + [GetVariable(code.localIndex[token.text])];
        return true;
      }
      if token.text !in mod.values { return false; }
      var value := mod.values[token.text];
      tokens := tokens[1..];
      if value.Callable() {
        code.opcodes := code.opcodes + [Literal(value)];
        code.opcodes := code.opcodes + [Apply];
      } else {
        code.opcodes := code.opcodes + [Literal(value)];
      }
      return true;
    }

    method CompileOne(code: Code) returns (ok: bool)
      requires tokens != []
      modifies this`tokens, code
      ensures ok <==> Compiler.CompileOne(mod.values, old(tokens), old(code.localIndex)).Some?
      ensures ok ==>
                var one := Compiler.CompileOne(mod.values, old(tokens), old(code.localIndex)).value;
                && code.opcodes == old(code.opcodes) + one.opcodes && code.localIndex == one.locals
                && tokens == one.rest
    {
      var done := CompileInt(code);
      if done { return true; }
      var r := CompileBind(code);
      if r.Taken? { return true; }
      if r.Failed? { return false; }
      ok := CompileGeneric(code);
    }

    method CompileFunction() returns (ok: bool, code: Code)
      modifies this`tokens
      ensures fresh(code)
      ensures ok <==> CompileBody(mod.values, old(tokens), map[]).Some?
      ensures ok ==> var body := CompileBody(mod.values, old(tokens), map[]).value;
                     code.opcodes == body.opcodes && code.localIndex == body.locals && tokens == body.rest
    {
      code := new Code();
      while true
        invariant fresh(code)
        invariant var whole := CompileBody(mod.values, old(tokens), map[]);
                  var more := CompileBody(mod.values, tokens, code.localIndex);
                  && (whole.None? <==> more.None?)
                  && (more.Some? ==> whole.value == more.value.(opcodes := code.opcodes + more.value.opcodes))
        decreases |tokens|
      {
        if tokens == [] { return false, code; }
        if tokens[0].text == "end" {
          tokens := tokens[1..];
          return true, code;
        }
        ghost var before, locals := tokens, code.localIndex;
        var done := CompileOne(code);
        if !done { return false, code; }
        CompileOneShorter(mod.values, before, locals);
      }
    }

    // `x_define_function`: the name is registered only after its body has been compiled.
    method DefineFunction() returns (ok: bool)
      requires mod.Valid()
      modifies this`tokens, mod`values, mod`program, mod`source
      ensures mod.Valid()
      ensures ok <==> old(tokens) != [] && CompileBody(old(mod.values), old(tokens)[1..], map[]).Some?
                      && old(tokens)[0].text !in old(mod.values)
      ensures ok ==>
                && mod.values == old(mod.values)[old(tokens)[0].text := FunctionValue(|old(mod.program)|)]
                && mod.source == old(mod.source) + [Definition(old(mod.values), old(tokens)[1..])]
                && tokens == CompileBody(old(mod.values), old(tokens)[1..], map[]).value.rest
      ensures !ok ==> mod.values == old(mod.values)
    {
      if tokens == [] { return false; }
      var name := tokens[0].text;
      tokens := tokens[1..];
      ghost var definition := Definition(mod.values, tokens);
      var compiled, code := CompileFunction();
      if !compiled { return false; }
      mod.AddFunction(code, definition);
      ok := mod.Define(name, FunctionValue(|mod.program| - 1));
    }

    // `x_define_rule`
    method DefineRule() returns (ok: bool)
      requires mod.Valid()
      modifies this`tokens, mod`program, mod`source, mod`ruleArrays, mod`rules
      ensures mod.Valid()
      ensures ok <==>
              && |old(tokens)| >= 2
              && (forall i :: 0 <= i < 2 ==>
                    old(tokens)[i].text in mod.values && mod.values[old(tokens)[i].text].CtorValue?)
              && CompileBody(mod.values, old(tokens)[2..], map[]).Some?
      ensures ok ==>
                && mod.source == old(mod.source) + [Definition(mod.values, old(tokens)[2..])]
                && mod.rules == old(mod.rules) + [Rule(mod.values[old(tokens)[0].text].ctor,
                                                       mod.values[old(tokens)[1].text].ctor, |old(mod.program)|)]
                && tokens == CompileBody(mod.values, old(tokens)[2..], map[]).value.rest
    {
      if |tokens| < 2 { return false; }
      var first, second := tokens[0].text, tokens[1].text;
      assert forall i | 0 <= i < 2 :: tokens[i].text == if i == 0 then first else second;
      tokens := tokens[2..];
      if first !in mod.values || !mod.values[first].CtorValue? { return false; }
      if second !in mod.values || !mod.values[second].CtorValue? { return false; }
      ghost var definition := Definition(mod.values, tokens);
      var compiled, code := CompileFunction();
      if !compiled { return false; }
      mod.AddFunction(code, definition);
      mod.DefineRule(mod.values[first].ctor, mod.values[second].ctor, |mod.program| - 1);
      return true;
    }
  }

  ghost function Prepend(names: seq<string>, r: Option<(seq<string>, seq<Token>)>): Option<(seq<string>, seq<Token>)> {
    match r
    case None => None
    case Some((more, rest)) => Some((names + more, rest))
  }

  lemma PrependNone(r: Option<(seq<string>, seq<Token>)>)
    ensures Prepend([], r) == r
  {
    if r.Some? {
      assert [] + r.value.0 == r.value.0;
    }
  }

  lemma PrependOne(names: seq<string>, tokens: seq<Token>)
    requires tokens != []
    ensures Prepend(names, TakeNames(tokens))
         == if tokens[0].text == ")" then Some((names, tokens[1..]))
            else Prepend(names + [tokens[0].text], TakeNames(tokens[1..]))
  {
    if tokens[0].text == ")" {
      assert names + [] == names;
    } else if TakeNames(tokens[1..]).Some? {
      var more := TakeNames(tokens[1..]).value.0;
      assert names + ([tokens[0].text] + more) == names + [tokens[0].text] + more;
    }
  }

  lemma BindLast(opcodes: Function, names: seq<string>, locals: Indices)
    requires names != []
    ensures var name, i := names[|names| - 1], IndexOf(locals, names[|names| - 1]);
            var next := BindOpcodes(names[..|names| - 1], locals[name := i]);
            && opcodes + BindOpcodes(names, locals).0 == opcodes + [SetVariable(i)] + next.0
            && BindOpcodes(names, locals).1 == next.1
            && (name in locals ==> locals[name := i] == locals)
  {
    var name, i := names[|names| - 1], IndexOf(locals, names[|names| - 1]);
    var next := BindOpcodes(names[..|names| - 1], locals[name := i]);
    assert opcodes + ([SetVariable(i)] + next.0) == opcodes + [SetVariable(i)] + next.0;
  }

  // Whatever has been loaded: every function ends, in a number of steps no value can change, and runs as its
  // tokens say.
  lemma LoadedFunctionsEnd(mod: Mod, f: nat, base: seq<Frame>, w: World)
    requires mod.Valid() && f < |mod.program|
    ensures var s := Steps(mod.program, Running(base + [NewFrame(mod.program[f])], w), InlinedCall(mod.program, f));
            var meaning := Interpret(mod.source, f, mod.source[f].names, mod.source[f].tokens, map[], w);
            s == if meaning.Some? then Running(base, meaning.value) else Crashed
  {
    ProgramShape(mod.source, mod.program);
    CallEnds(mod.program, f, base, w);
    CallAgrees(mod.source, mod.program, f, w);
  }

  lemma ProgramShape(source: seq<Definition>, program: seq<Function>)
    requires CompiledFrom(source, program)
    ensures CompiledProgram(program) && forall f :: 0 <= f < |program| ==> Assigned({}, program[f])
  {
    forall f | 0 <= f < |program|
      ensures Compiled(f, program[f]) && Assigned({}, program[f])
    {
      BodyShape(source[f].names, source[f].tokens, map[], f, {});
    }
  }
}
