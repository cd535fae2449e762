/**
 Reading the body of a rule word by word.
 */
module Reading {
  import opened Links
  import opened Script
  import opened Machine
  import opened Compiler
  import opened Net

  function Words(texts: seq<string>): seq<Token> {
    seq(|texts|, i requires 0 <= i < |texts| => Token(Generic, texts[i], 0))
  }

  // The interpreter standing at the i-th word of a body.
  function Ahead(source: seq<Definition>, bound: nat, names: Names, texts: seq<string>, i: nat, env: Names, w: World)
    : Option<World>
    requires i <= |texts|
  {
    Interpret(source, bound, names, Words(texts)[i..], env, w)
  }

  // The worker's view when a body starts on the ends `ins`, and when it is done.
  function Before(m: set<NodeId>, ins: seq<End>): World {
    World(m, 0, Refs(ins), [])
  }

  function After(m: set<NodeId>, k: nat, script: seq<Action>): World {
    World(m, k, [], script)
  }

  // ----- One word at a time -----

  lemma PushPop(w: World, base: seq<Value>, v: Value)
    requires w.stack == base + [v]
    ensures w.stack != [] && w.Top() == v && w.Pop().stack == base
  {
  }

  lemma ReadEnd(source: seq<Definition>, bound: nat, names: Names, texts: seq<string>, i: nat, env: Names, w: World)
    requires i < |texts| && texts[i] == "end"
    ensures Ahead(source, bound, names, texts, i, env, w) == Some(w)
  {
  }

  lemma ReadLocal(source: seq<Definition>, bound: nat, names: Names, texts: seq<string>, i: nat, env: Names, w: World,
                  v: Value)
    requires i < |texts| && texts[i] != "end" && texts[i] != "(" && texts[i] in env && env[texts[i]] == v
    ensures Ahead(source, bound, names, texts, i, env, w)
         == Ahead(source, bound, names, texts, i + 1, env, w.(stack := w.stack + [v]))
  {
    assert Words(texts)[i..][1..] == Words(texts)[i + 1..];
  }

  lemma ReadWord(source: seq<Definition>, bound: nat, names: Names, texts: seq<string>, i: nat, env: Names, w: World,
                 value: Value, w': World)
    requires i < |texts| && texts[i] != "end" && texts[i] != "(" && texts[i] !in env
    requires texts[i] in names && names[texts[i]] == value
    requires Word(source, bound, w, value) == Some(w')
    ensures Ahead(source, bound, names, texts, i, env, w)
         == Ahead(source, bound, names, texts, i + 1, env, w')
  {
    assert Words(texts)[i..][1..] == Words(texts)[i + 1..];
  }

  lemma ReadBind1(source: seq<Definition>, bound: nat, names: Names, texts: seq<string>, i: nat, env: Names, w: World,
                  base: seq<Value>, x: Value)
    requires i + 2 < |texts| && texts[i] == "(" && texts[i + 2] == ")" && texts[i + 1] != ")"
    requires w.stack == base + [x]
    ensures Ahead(source, bound, names, texts, i, env, w)
              == Ahead(source, bound, names, texts, i + 3, env[texts[i + 1] := x], w.(stack := base))
  {
    var tokens := Words(texts);
    PushPop(w, base, x);
    assert tokens[i..][1..] == tokens[i + 1..];
    assert tokens[i + 1..][1..] == tokens[i + 2..];
    assert tokens[i + 2..][1..] == tokens[i + 3..];
    assert TakeNames(tokens[i + 2..]) == Some(([], tokens[i + 3..]));
    assert [texts[i + 1]] + [] == [texts[i + 1]];
    assert TakeNames(tokens[i + 1..]) == Some(([texts[i + 1]], tokens[i + 3..]));
    BindOne(texts[i + 1], env, w, base, x);
  }

  lemma BindOne(name: string, env: Names, w: World, base: seq<Value>, x: Value)
    requires w.stack == base + [x]
    ensures BindNames([name], env, w) == Some((env[name := x], w.(stack := base)))
  {
    PushPop(w, base, x);
    assert [name][..0] == [];
  }

  lemma BindTwo(first: string, second: string, env: Names, w: World, base: seq<Value>, x: Value, y: Value)
    requires w.stack == base + [x, y]
    ensures BindNames([first, second], env, w) == Some((env[second := y][first := x], w.(stack := base)))
  {
    assert w.stack == (base + [x]) + [y];
    PushPop(w, base + [x], y);
    assert [first, second][..1] == [first];
    BindOne(first, env[second := y], w.Pop(), base, x);
  }

  lemma ReadBind2(source: seq<Definition>, bound: nat, names: Names, texts: seq<string>, i: nat, env: Names, w: World,
                  base: seq<Value>, x: Value, y: Value)
    requires i + 3 < |texts| && texts[i] == "(" && texts[i + 3] == ")" && texts[i + 1] != ")" && texts[i + 2] != ")"
    requires w.stack == base + [x, y]
    ensures Ahead(source, bound, names, texts, i, env, w)
         == Ahead(source, bound, names, texts, i + 4, env[texts[i + 2] := y][texts[i + 1] := x], w.(stack := base))
  {
    var tokens := Words(texts);
    var formals := [texts[i + 1], texts[i + 2]];
    assert tokens[i..][1..] == tokens[i + 1..];
    assert tokens[i + 1..][1..] == tokens[i + 2..];
    assert tokens[i + 2..][1..] == tokens[i + 3..];
    assert tokens[i + 3..][1..] == tokens[i + 4..];
    assert TakeNames(tokens[i + 3..]) == Some(([], tokens[i + 4..]));
    assert [texts[i + 2]] + [] == [texts[i + 2]];
    assert TakeNames(tokens[i + 2..]) == Some(([texts[i + 2]], tokens[i + 4..]));
    assert [texts[i + 1]] + [texts[i + 2]] == formals;
    assert TakeNames(tokens[i + 1..]) == Some((formals, tokens[i + 4..]));
    BindTwo(texts[i + 1], texts[i + 2], env, w, base, x, y);
  }

  lemma Connects(w: World, base: seq<Value>, l: End, r: End)
    requires w.stack == base + [Ref(l), Ref(r)]
    ensures ApplyPrim(w, ConnectP) == Some(w.(stack := base).Log(Join(l, r)))
  {
    assert w.stack[..|w.stack| - 2] == base;
  }
}
