/**
 Rules between equal constructors: the combinators of examples/combinators/CDE.fth that meet their own kind.
 */
module Combinators {
  import opened Links
  import opened Script
  import opened Machine
  import opened Execution
  import opened Compiler
  import opened Net
  import opened Confluence
  import opened Reading
  import opened NatEffects

  const C := Ctor("C", [false, false], [true])
  const D := Ctor("D", [true], [false, false])
  const E := Ctor("E", [true], [])

  const WORDS: Names := map[
    "C" := CtorValue(C), "D" := CtorValue(D), "E" := CtorValue(E), "connect" := PrimValue(ConnectP)]

  const C_C := ["(", "top-car", "top-cdr", ")", "(", "lower-car", "lower-cdr", ")",
                "top-car", "lower-cdr", "connect", "top-cdr", "lower-car", "connect", "end"]
  const D_D := ["(", "top-first", "top-second", ")", "(", "lower-first", "lower-second", ")",
                "top-first", "lower-first", "connect", "top-second", "lower-second", "connect", "end"]
  const E_E := ["end"]

  function Bodies(): seq<Definition> {
    [Definition(WORDS, Words(C_C)), Definition(WORDS, Words(D_D)), Definition(WORDS, Words(E_E))]
  }

  function CompiledBody(f: nat): Function
    requires f < 3
  {
    match CompileBody(WORDS, Bodies()[f].tokens, map[])
    case None => []
    case Some(piece) => piece.opcodes
  }

  function Annihilators(): System {
    System([CompiledBody(0), CompiledBody(1), CompiledBody(2)], [Rule(C, C, 0), Rule(D, D, 1), Rule(E, E, 2)])
  }

  // ----- What the bodies mean -----

  // Two locals connected.
  lemma ReadConnect(f: nat, texts: seq<string>, i: nat, env: Names, w: World, l: End, r: End)
    requires i + 2 < |texts| && texts[i + 2] == "connect" && "connect" !in env
    requires forall k :: i <= k < i + 2 ==> texts[k] != "end" && texts[k] != "(" && texts[k] in env
    requires env[texts[i]] == Ref(l) && env[texts[i + 1]] == Ref(r)
    ensures Ahead(Bodies(), f, WORDS, texts, i, env, w)
         == Ahead(Bodies(), f, WORDS, texts, i + 3, env, w.Log(Join(l, r)))
  {
    hide Ahead, Bodies;
    ReadLocal(Bodies(), f, WORDS, texts, i, env, w, Ref(l));
    var w1 := w.(stack := w.stack + [Ref(l)]);
    ReadLocal(Bodies(), f, WORDS, texts, i + 1, env, w1, Ref(r));
    var w2 := w1.(stack := w1.stack + [Ref(r)]);
    assert w2.stack == w.stack + [Ref(l), Ref(r)];
    Connects(w2, w.stack, l, r);
    assert w2.(stack := w.stack) == w;
    ReadWord(Bodies(), f, WORDS, texts, i + 2, env, w2, PrimValue(ConnectP), w.Log(Join(l, r)));
  }

  predicate Names4(a: string, b: string, c: string, d: string) {
    && a != b && a != c && a != d && b != c && b != d && c != d
    && {a, b, c, d} !! {"(", ")", "end", "connect"}
  }

  // `( a b ) ( c d )`: the ends of the second node are on top.
  lemma ReadHeader(f: nat, texts: seq<string>, m: set<NodeId>, l1: End, l2: End, r1: End, r2: End)
    returns (env: Names)
    requires |texts| > 8 && texts[0] == texts[4] == "(" && texts[3] == texts[7] == ")"
    requires Names4(texts[1], texts[2], texts[5], texts[6])
    ensures Ahead(Bodies(), f, WORDS, texts, 0, map[], Before(m, [l1, l2, r1, r2]))
         == Ahead(Bodies(), f, WORDS, texts, 8, env, World(m, 0, [], []))
    ensures env.Keys == {texts[1], texts[2], texts[5], texts[6]}
    ensures env[texts[1]] == Ref(r1) && env[texts[2]] == Ref(r2) && env[texts[5]] == Ref(l1) && env[texts[6]] == Ref(l2)
  {
    hide Ahead, Bodies;
    var w := Before(m, [l1, l2, r1, r2]);
    assert w.stack == [Ref(l1), Ref(l2)] + [Ref(r1), Ref(r2)];
    ReadBind2(Bodies(), f, WORDS, texts, 0, map[], w, [Ref(l1), Ref(l2)], Ref(r1), Ref(r2));
    var env1: Names := map[][texts[2] := Ref(r2)][texts[1] := Ref(r1)];
    var w1 := w.(stack := [Ref(l1), Ref(l2)]);
    assert w1.stack == [] + [Ref(l1), Ref(l2)];
    ReadBind2(Bodies(), f, WORDS, texts, 4, env1, w1, [], Ref(l1), Ref(l2));
    env := env1[texts[6] := Ref(l2)][texts[5] := Ref(l1)];
    assert w1.(stack := []) == World(m, 0, [], []);
  }

  function Pairs(p: End, q: End, u: End, v: End): seq<Action> {
    [Join(p, q), Join(u, v)]
  }

  lemma BodyC(m: set<NodeId>, l1: End, l2: End, r1: End, r2: End)
    ensures Ahead(Bodies(), 0, WORDS, C_C, 0, map[], Before(m, [l1, l2, r1, r2]))
         == Some(After(m, 0, Pairs(r1, l2, r2, l1)))
  {
    hide Ahead, Bodies;
    var env := ReadHeader(0, C_C, m, l1, l2, r1, r2);
    var w := World(m, 0, [], []);
    ReadConnect(0, C_C, 8, env, w, r1, l2);
    ReadConnect(0, C_C, 11, env, w.Log(Join(r1, l2)), r2, l1);
    ReadEnd(Bodies(), 0, WORDS, C_C, 14, env, w.Log(Join(r1, l2)).Log(Join(r2, l1)));
    assert w.Log(Join(r1, l2)).Log(Join(r2, l1)) == After(m, 0, Pairs(r1, l2, r2, l1));
  }

  lemma BodyD(m: set<NodeId>, l1: End, l2: End, r1: End, r2: End)
    ensures Ahead(Bodies(), 1, WORDS, D_D, 0, map[], Before(m, [l1, l2, r1, r2]))
         == Some(After(m, 0, Pairs(r1, l1, r2, l2)))
  {
    hide Ahead, Bodies;
    var env := ReadHeader(1, D_D, m, l1, l2, r1, r2);
    var w := World(m, 0, [], []);
    ReadConnect(1, D_D, 8, env, w, r1, l1);
    ReadConnect(1, D_D, 11, env, w.Log(Join(r1, l1)), r2, l2);
    ReadEnd(Bodies(), 1, WORDS, D_D, 14, env, w.Log(Join(r1, l1)).Log(Join(r2, l2)));
    assert w.Log(Join(r1, l1)).Log(Join(r2, l2)) == After(m, 0, Pairs(r1, l1, r2, l2));
  }

  lemma BodyE(m: set<NodeId>)
    ensures Ahead(Bodies(), 2, WORDS, E_E, 0, map[], Before(m, [])) == Some(After(m, 0, []))
  {
    hide Ahead, Bodies;
    ReadEnd(Bodies(), 2, WORDS, E_E, 0, map[], Before(m, []));
    assert Before(m, []) == After(m, 0, []);
  }

  // ----- They compile -----

  lemma Compiles(f: nat, texts: seq<string>, m: set<NodeId>, ins: seq<End>, w: World)
    requires f < 3 && Bodies()[f] == Definition(WORDS, Words(texts))
    requires Ahead(Bodies(), f, WORDS, texts, 0, map[], Before(m, ins)) == Some(w)
    ensures CompileBody(WORDS, Bodies()[f].tokens, map[]).Some?
  {
    hide Bodies;
    assert Words(texts)[0..] == Words(texts);
    InterpretedCompiles(Bodies(), f, WORDS, Words(texts), map[], map[], Before(m, ins));
  }

  lemma AllCompile()
    ensures CompiledFrom(Bodies(), Annihilators().program)
  {
    hide Ahead, CompileBody;
    var e := WireEnd(Wire({}, 0), false);
    BodyC({}, e, e, e, e);
    BodyD({}, e, e, e, e);
    BodyE({});
    Compiles(0, C_C, {}, [e, e, e, e], After({}, 0, Pairs(e, e, e, e)));
    Compiles(1, D_D, {}, [e, e, e, e], After({}, 0, Pairs(e, e, e, e)));
    Compiles(2, E_E, {}, [], After({}, 0, []));
  }

  lemma BodyEffect(f: nat, texts: seq<string>, rule: Rule, m: set<NodeId>, ins: seq<End>, script: seq<Action>, c: Build)
    requires f < 3 && Bodies()[f] == Definition(WORDS, Words(texts)) && rule.body == f
    requires Ahead(Bodies(), f, WORDS, texts, 0, map[], Before(m, ins)) == Some(After(m, 0, script))
    requires Leads(Start(m, EndSet(ins)), script, c) && c.free == {} && c.open == {}
    ensures BodyOk(Annihilators(), rule, m, ins) && Effect(Annihilators(), rule, m, ins) == c
  {
    AllCompile();
    ThreeBodies();
    hide Bodies, Annihilators, Leads;
    assert Words(texts)[0..] == Words(texts);
    CallAgrees(Bodies(), Annihilators().program, f, Before(m, ins));
    RuleEffect(Annihilators(), rule, m, ins, After(m, 0, script), c);
  }

  lemma ThreeBodies()
    ensures |Bodies()| == |Annihilators().program| == 3
  {
  }

  // ----- What they do -----

  // Nothing is built; two pairs of ends are connected.
  function Joined2(m: set<NodeId>, p: End, q: End, u: End, v: End): Build {
    Build(m, 0, {}, map[], {}, Link(Link(map[], p, q), u, v), {})
  }

  lemma LeadsPairs(m: set<NodeId>, p: End, q: End, u: End, v: End)
    requires p != q && p != u && p != v && q != u && q != v && u != v && Inputs(m, [p, q, u, v])
    ensures Leads(Start(m, {p, q, u, v}), Pairs(p, q, u, v), Joined2(m, p, q, u, v))
  {
    var b := Start(m, {p, q, u, v});
    assert p in [p, q, u, v] && q in [p, q, u, v] && u in [p, q, u, v] && v in [p, q, u, v];
    LeadsJoin(b, p, q);
    var b1 := b.(free := b.free - {p, q}, links := Link(b.links, p, q));
    LeadsJoin(b1, u, v);
    var b2 := b1.(free := b1.free - {u, v}, links := Link(b1.links, u, v));
    LeadsConcat(b, [Join(p, q)], b1, [Join(u, v)], b2);
    assert [Join(p, q)] + [Join(u, v)] == Pairs(p, q, u, v);
    assert b2 == Joined2(m, p, q, u, v);
  }

  lemma FourInputs(m: set<NodeId>, ins: seq<End>)
    requires Inputs(m, ins) && |ins| == 4
    ensures ins == [ins[0], ins[1], ins[2], ins[3]]
    ensures ins[0] != ins[1] && ins[0] != ins[2] && ins[0] != ins[3]
    ensures ins[1] != ins[2] && ins[1] != ins[3] && ins[2] != ins[3]
    ensures EndSet(ins) == {ins[0], ins[1], ins[2], ins[3]}
    ensures forall p, q, u, v ::
              {p, q, u, v} == EndSet(ins) && p != q && p != u && p != v && q != u && q != v && u != v ==>
              Inputs(m, [p, q, u, v])
  {
  }

  lemma EffectC(m: set<NodeId>, ins: seq<End>)
    requires Inputs(m, ins) && |ins| == 4
    ensures BodyOk(Annihilators(), Rule(C, C, 0), m, ins)
    ensures Effect(Annihilators(), Rule(C, C, 0), m, ins) == Joined2(m, ins[2], ins[1], ins[3], ins[0])
  {
    hide Ahead, Annihilators, Leads, Inputs;
    var l1, l2, r1, r2 := ins[0], ins[1], ins[2], ins[3];
    FourInputs(m, ins);
    BodyC(m, l1, l2, r1, r2);
    assert {r1, l2, r2, l1} == EndSet(ins);
    LeadsPairs(m, r1, l2, r2, l1);
    BodyEffect(0, C_C, Rule(C, C, 0), m, ins, Pairs(r1, l2, r2, l1), Joined2(m, r1, l2, r2, l1));
  }

  lemma EffectD(m: set<NodeId>, ins: seq<End>)
    requires Inputs(m, ins) && |ins| == 4
    ensures BodyOk(Annihilators(), Rule(D, D, 1), m, ins)
    ensures Effect(Annihilators(), Rule(D, D, 1), m, ins) == Joined2(m, ins[2], ins[0], ins[3], ins[1])
  {
    hide Ahead, Annihilators, Leads, Inputs;
    var l1, l2, r1, r2 := ins[0], ins[1], ins[2], ins[3];
    FourInputs(m, ins);
    BodyD(m, l1, l2, r1, r2);
    assert {r1, l1, r2, l2} == EndSet(ins);
    LeadsPairs(m, r1, l1, r2, l2);
    BodyEffect(1, D_D, Rule(D, D, 1), m, ins, Pairs(r1, l1, r2, l2), Joined2(m, r1, l1, r2, l2));
  }

  lemma EffectE(m: set<NodeId>)
    ensures BodyOk(Annihilators(), Rule(E, E, 2), m, []) && Effect(Annihilators(), Rule(E, E, 2), m, []) == Start(m, {})
  {
    hide Ahead, Annihilators;
    BodyE(m);
    assert EndSet([]) == {};
    BodyEffect(2, E_E, Rule(E, E, 2), m, [], [], Start(m, {}));
  }

  // ----- They do not tell their two sides apart -----

  lemma Counts()
    ensures AuxCount(C) == 2 && AuxCount(D) == 2 && AuxCount(E) == 0
  {
    assert AuxCountFrom(C, 3) == AuxCountFrom(D, 3) == 0;
    assert AuxCountFrom(D, 2) == 1 && AuxCountFrom(C, 2) == 0;
    assert AuxCountFrom(C, 1) == 1 && AuxCountFrom(D, 1) == 2;
    assert AuxCountFrom(E, 1) == 0;
  }

  lemma SameJoins(m: set<NodeId>, p: End, q: End, u: End, v: End)
    requires p != u && p != v && q != u && q != v
    ensures Joined2(m, p, q, u, v) == Joined2(m, v, u, q, p) == Joined2(m, q, p, v, u)
  {
    hide Link;
    LinkTurned(map[], p, q);
    LinkTurned(Link(map[], q, p), u, v);
    LinksSwapped(map[], q, p, v, u);
  }

  lemma LinkTurned(L: Links, p: End, q: End)
    ensures Link(L, p, q) == Link(L, q, p)
  {
  }

  lemma LinksSwapped(L: Links, p: End, q: End, u: End, v: End)
    requires p != u && p != v && q != u && q != v
    ensures Link(Link(L, p, q), u, v) == Link(Link(L, u, v), p, q)
  {
  }

  lemma SameEffectC(m: set<NodeId>, a: seq<End>, b: seq<End>)
    requires Inputs(m, a + b) && |a| == |b| == 2
    ensures Effect(Annihilators(), Rule(C, C, 0), m, a + b) == Effect(Annihilators(), Rule(C, C, 0), m, b + a)
  {
    hide Effect, Inputs, Joined2, Annihilators, BodyOk;
    SwapInputs(m, a, b);
    FourInputs(m, a + b);
    EffectC(m, a + b);
    EffectC(m, b + a);
    SameJoins(m, b[0], a[1], b[1], a[0]);
  }

  lemma SameEffectD(m: set<NodeId>, a: seq<End>, b: seq<End>)
    requires Inputs(m, a + b) && |a| == |b| == 2
    ensures Effect(Annihilators(), Rule(D, D, 1), m, a + b) == Effect(Annihilators(), Rule(D, D, 1), m, b + a)
  {
    hide Effect, Inputs, Joined2, Annihilators, BodyOk;
    SwapInputs(m, a, b);
    FourInputs(m, a + b);
    EffectD(m, a + b);
    EffectD(m, b + a);
    SameJoins(m, b[0], a[0], b[1], a[1]);
  }

  lemma SameEffect(rule: Rule, m: set<NodeId>, a: seq<End>, b: seq<End>)
    requires rule in Annihilators().rules && Inputs(m, a + b)
    requires |a| == AuxCount(rule.left) && |b| == AuxCount(rule.right)
    ensures Effect(Annihilators(), rule, m, a + b) == Effect(Annihilators(), rule, m, b + a)
  {
    hide Effect, Inputs;
    Counts();
    if rule == Rule(E, E, 2) {
      assert a + b == b + a;
    } else if rule == Rule(C, C, 0) {
      SameEffectC(m, a, b);
    } else {
      SameEffectD(m, a, b);
    }
  }

  lemma SwapInputs(m: set<NodeId>, a: seq<End>, b: seq<End>)
    requires Inputs(m, a + b)
    ensures Inputs(m, b + a)
  {
    forall i, j | 0 <= i < j < |b + a|
      ensures (b + a)[i] != (b + a)[j]
    {
      var i', j' := if i < |b| then |a| + i else i - |b|, if j < |b| then |a| + j else j - |b|;
      assert (a + b)[i'] == (b + a)[i] && (a + b)[j'] == (b + a)[j] && i' != j';
      assert if i' < j' then (a + b)[i'] != (a + b)[j'] else (a + b)[j'] != (a + b)[i'];
    }
    forall e | e in b + a
      ensures e in a + b
    {
    }
  }

  // So they make a system in which the order of interactions does not matter.
  lemma AnnihilatorsGood()
    ensures GoodSystem(Annihilators())
  {
    hide Effect, BodyOk, Inputs;
    Counts();
    forall rule | rule in Annihilators().rules
      ensures GoodRule(Annihilators(), rule) && rule.left == rule.right && SymmetricRule(Annihilators(), rule)
    {
      forall m, ins | Inputs(m, ins) && |ins| == AuxCount(rule.left) + AuxCount(rule.right)
        ensures BodyOk(Annihilators(), rule, m, ins)
      {
        if rule == Rule(E, E, 2) {
          assert ins == [];
          EffectE(m);
        } else if rule == Rule(C, C, 0) {
          EffectC(m, ins);
        } else {
          EffectD(m, ins);
        }
      }
      forall m, a, b | Inputs(m, a + b) && |a| == AuxCount(rule.left) && |b| == AuxCount(rule.right)
        ensures Effect(Annihilators(), rule, m, a + b) == Effect(Annihilators(), rule, m, b + a)
      {
        SameEffect(rule, m, a, b);
      }
    }
  }
}
