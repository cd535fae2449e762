/**
 The rules for natural numbers make a well-behaved system.
 */
module NatSystem {
  import opened Links
  import opened Script
  import opened Machine
  import opened Compiler
  import opened Net
  import opened Reading
  import opened NatRules
  import opened NatEffects

  // ----- The bodies as they stand in the source -----

  lemma WordsMean()
    ensures Means("zero", map[], CtorValue(ZERO)) && Means("add1", map[], CtorValue(ADD1))
    ensures Means("add", map[], CtorValue(ADD)) && Means("nat-erase", map[], CtorValue(ERASE))
    ensures Means("nat-dup", map[], CtorValue(DUP)) && Means("mul", map[], CtorValue(MUL))
    ensures Means("connect", map[], PrimValue(ConnectP)) && Means("swap", map[], PrimValue(SwapP))
  {
  }

  lemma ZeroAddMeans(m: set<NodeId>, a: End, r: End)
    ensures Standing(0, ZERO_ADD, 0, map[], Before(m, [a, r])) == Some(After(m, 0, ZeroAddScript(m, a, r)))
  {
    hide Standing;
    WordsMean();
    RunZeroAdd(ZERO_ADD, "addend", "result", "connect", m, a, r);
  }

  lemma Add1AddMeans(m: set<NodeId>, p: End, a: End, r: End)
    requires a.WireEnd?
    ensures Standing(1, ADD1_ADD, 0, map[], Before(m, [p, a, r])) == Some(After(m, 3, Add1AddScript(m, p, a, r)))
  {
    hide Standing;
    WordsMean();
    RunAdd1Add(ADD1_ADD, "addend", "result", "prev", "add", "add1", "connect", m, p, a, r);
  }

  lemma ZeroEraseMeans(m: set<NodeId>)
    ensures Standing(2, ZERO_ERASE, 0, map[], Before(m, [])) == Some(After(m, 0, []))
  {
    AtEnd(2, ZERO_ERASE, 0, map[], Before(m, []));
    assert Before(m, []) == After(m, 0, []);
  }

  lemma Add1EraseMeans(m: set<NodeId>, p: End)
    ensures Standing(3, ADD1_ERASE, 0, map[], Before(m, [p])) == Some(After(m, 1, EraseBlock(m, 0, p)))
  {
    hide Standing;
    WordsMean();
    RunAdd1Erase(ADD1_ERASE, "prev", "nat-erase", m, p);
  }

  lemma ZeroDupMeans(m: set<NodeId>, f: End, s: End)
    ensures Standing(4, ZERO_DUP, 0, map[], Before(m, [f, s])) == Some(After(m, 2, ZeroDupScript(m, f, s)))
  {
    hide Standing;
    WordsMean();
    RunZeroDup(ZERO_DUP, "first", "second", "zero", "connect", m, f, s);
  }

  lemma Add1DupMeans(m: set<NodeId>, p: End, f: End, s: End)
    ensures Standing(5, ADD1_DUP, 0, map[], Before(m, [p, f, s])) == Some(After(m, 5, Add1DupScript(m, p, f, s)))
  {
    hide Standing;
    WordsMean();
    RunAdd1Dup(ADD1_DUP, "first", "second", "prev", "prev-first", "prev-second", "nat-dup", "add1", "connect",
               m, p, f, s);
  }

  lemma ZeroMulMeans(m: set<NodeId>, a: End, r: End)
    ensures Standing(6, ZERO_MUL, 0, map[], Before(m, [a, r])) == Some(After(m, 2, ZeroMulScript(m, a, r)))
  {
    hide Standing;
    WordsMean();
    RunZeroMul(ZERO_MUL, "mulend", "result", "nat-erase", "zero", "connect", m, a, r);
  }

  lemma Add1MulMeans(m: set<NodeId>, p: End, a: End, r: End)
    requires p.WireEnd?
    ensures Standing(7, ADD1_MUL, 0, map[], Before(m, [p, a, r])) == Some(After(m, 7, Add1MulScript(m, p, a, r)))
  {
    hide Standing;
    WordsMean();
    RunAdd1Mul(ADD1_MUL, "mulend", "result", "prev", "mulend-first", "mulend-second",
               "nat-dup", "swap", "mul", "add", "connect", m, p, a, r);
  }

  // ----- They compile -----

  lemma FirstCompile(f: nat)
    requires f < 4
    ensures CompileBody(NAMES, Source()[f].tokens, map[]).Some? && Source()[f].names == NAMES
    ensures CompileBody(NAMES, Source()[f].tokens, map[]).value.opcodes == Program()[f]
  {
    hide Standing, CompileBody, Interpret;
    var e := WireEnd(Wire({}, 0), false);
    match f
    case 0 => ZeroAddMeans({}, e, e); MeaningOf(0, ZERO_ADD, {}, [e, e], After({}, 0, ZeroAddScript({}, e, e)));
    case 1 => Add1AddMeans({}, e, e, e); MeaningOf(1, ADD1_ADD, {}, [e, e, e],
                                                   After({}, 3, Add1AddScript({}, e, e, e)));
    case 2 => ZeroEraseMeans({}); MeaningOf(2, ZERO_ERASE, {}, [], After({}, 0, []));
    case 3 => Add1EraseMeans({}, e); MeaningOf(3, ADD1_ERASE, {}, [e], After({}, 1, EraseBlock({}, 0, e)));
  }

  lemma OthersCompile(f: nat)
    requires 4 <= f < 8
    ensures CompileBody(NAMES, Source()[f].tokens, map[]).Some? && Source()[f].names == NAMES
    ensures CompileBody(NAMES, Source()[f].tokens, map[]).value.opcodes == Program()[f]
  {
    hide Standing, CompileBody, Interpret;
    var e := WireEnd(Wire({}, 0), false);
    match f
    case 4 => ZeroDupMeans({}, e, e); MeaningOf(4, ZERO_DUP, {}, [e, e], After({}, 2, ZeroDupScript({}, e, e)));
    case 5 => Add1DupMeans({}, e, e, e); MeaningOf(5, ADD1_DUP, {}, [e, e, e],
                                                   After({}, 5, Add1DupScript({}, e, e, e)));
    case 6 => ZeroMulMeans({}, e, e); MeaningOf(6, ZERO_MUL, {}, [e, e], After({}, 2, ZeroMulScript({}, e, e)));
    case 7 => Add1MulMeans({}, e, e, e); MeaningOf(7, ADD1_MUL, {}, [e, e, e],
                                                   After({}, 7, Add1MulScript({}, e, e, e)));
  }

  lemma EachCompiles(f: nat)
    requires f < 8
    ensures CompileBody(NAMES, Source()[f].tokens, map[]).Some? && Source()[f].names == NAMES
    ensures CompileBody(NAMES, Source()[f].tokens, map[]).value.opcodes == Program()[f]
  {
    if f < 4 {
      FirstCompile(f);
    } else {
      OthersCompile(f);
    }
  }

  lemma Compiles()
    ensures CompiledFrom(Source(), Program())
  {
    assert |Source()| == 8 && |Program()| == 8;
    forall f | 0 <= f < |Source()|
      ensures CompileBody(Source()[f].names, Source()[f].tokens, map[]).Some?
      ensures CompileBody(Source()[f].names, Source()[f].tokens, map[]).value.opcodes == Program()[f]
      ensures EarlierOnly(Source()[f].names, f)
    {
      EachCompiles(f);
    }
  }

  // ----- Each body uses what it is given exactly once, and builds this -----

  // What the interpreter makes of the tokens is what the compiled body does to a net.
  lemma BodyIs(f: nat, texts: seq<string>, rule: Rule, m: set<NodeId>, ins: seq<End>, k: nat, script: seq<Action>,
               c: Build)
    requires f < 8 && Source()[f] == Body(texts) && rule.body == f
    requires Standing(f, texts, 0, map[], Before(m, ins)) == Some(After(m, k, script))
    requires Leads(Start(m, EndSet(ins)), script, c) && c.free == {} && c.open == {}
    ensures BodyOk(Nats(), rule, m, ins) && Effect(Nats(), rule, m, ins) == c
  {
    Compiles();
    Lengths();
    hide Source, Program, Leads, Standing;
    CallMeans(f, texts, m, ins, After(m, k, script));
    RuleEffect(Nats(), rule, m, ins, After(m, k, script), c);
  }

  lemma Lengths()
    ensures |Source()| == 8 && |Program()| == 8
  {
  }

  lemma ZeroAddOk(m: set<NodeId>, a: End, r: End)
    requires Inputs(m, [a, r])
    ensures BodyOk(Nats(), Rule(ZERO, ADD, 0), m, [a, r])
    ensures Effect(Nats(), Rule(ZERO, ADD, 0), m, [a, r]) == ZeroAddEffect(m, a, r)
  {
    hide Program, Leads, Standing, Inputs;
    ZeroAddMeans(m, a, r);
    LeadsZeroAdd(m, a, r);
    assert EndSet([a, r]) == {a, r};
    BodyIs(0, ZERO_ADD, Rule(ZERO, ADD, 0), m, [a, r], 0, ZeroAddScript(m, a, r), ZeroAddEffect(m, a, r));
  }

  lemma Add1AddOk(m: set<NodeId>, p: End, a: End, r: End)
    requires Inputs(m, [p, a, r])
    ensures BodyOk(Nats(), Rule(ADD1, ADD, 1), m, [p, a, r])
    ensures Effect(Nats(), Rule(ADD1, ADD, 1), m, [p, a, r]) == Add1AddEffect(m, p, a, r)
  {
    hide Program, Leads, Standing;
    assert a in [p, a, r];
    Add1AddMeans(m, p, a, r);
    LeadsAdd1Add(m, p, a, r);
    assert EndSet([p, a, r]) == {p, a, r};
    BodyIs(1, ADD1_ADD, Rule(ADD1, ADD, 1), m, [p, a, r], 3, Add1AddScript(m, p, a, r), Add1AddEffect(m, p, a, r));
  }

  lemma ZeroEraseOk(m: set<NodeId>)
    requires Inputs(m, [])
    ensures BodyOk(Nats(), Rule(ZERO, ERASE, 2), m, [])
    ensures Effect(Nats(), Rule(ZERO, ERASE, 2), m, []) == Start(m, {})
  {
    hide Program, Standing;
    ZeroEraseMeans(m);
    assert EndSet([]) == {};
    BodyIs(2, ZERO_ERASE, Rule(ZERO, ERASE, 2), m, [], 0, [], Start(m, {}));
  }

  lemma Add1EraseOk(m: set<NodeId>, p: End)
    requires Inputs(m, [p])
    ensures BodyOk(Nats(), Rule(ADD1, ERASE, 3), m, [p])
    ensures Effect(Nats(), Rule(ADD1, ERASE, 3), m, [p]) == Add1EraseEffect(m, p)
  {
    hide Program, Leads, Standing, Inputs;
    Add1EraseMeans(m, p);
    LeadsAdd1Erase(m, p);
    assert EndSet([p]) == {p};
    BodyIs(3, ADD1_ERASE, Rule(ADD1, ERASE, 3), m, [p], 1, EraseBlock(m, 0, p), Add1EraseEffect(m, p));
  }

  lemma ZeroDupOk(m: set<NodeId>, f: End, s: End)
    requires Inputs(m, [f, s])
    ensures BodyOk(Nats(), Rule(ZERO, DUP, 4), m, [f, s])
    ensures Effect(Nats(), Rule(ZERO, DUP, 4), m, [f, s]) == ZeroDupEffect(m, f, s)
  {
    hide Program, Leads, Standing, Inputs;
    ZeroDupMeans(m, f, s);
    LeadsZeroDup(m, f, s);
    assert EndSet([f, s]) == {f, s};
    BodyIs(4, ZERO_DUP, Rule(ZERO, DUP, 4), m, [f, s], 2, ZeroDupScript(m, f, s), ZeroDupEffect(m, f, s));
  }

  lemma Add1DupOk(m: set<NodeId>, p: End, f: End, s: End)
    requires Inputs(m, [p, f, s])
    ensures BodyOk(Nats(), Rule(ADD1, DUP, 5), m, [p, f, s])
    ensures Effect(Nats(), Rule(ADD1, DUP, 5), m, [p, f, s]) == Add1DupEffect(m, p, f, s)
  {
    hide Program, Leads, Standing, Inputs;
    Add1DupMeans(m, p, f, s);
    LeadsAdd1Dup(m, p, f, s);
    assert EndSet([p, f, s]) == {p, f, s};
    BodyIs(5, ADD1_DUP, Rule(ADD1, DUP, 5), m, [p, f, s], 5, Add1DupScript(m, p, f, s), Add1DupEffect(m, p, f, s));
  }

  lemma ZeroMulOk(m: set<NodeId>, a: End, r: End)
    requires Inputs(m, [a, r])
    ensures BodyOk(Nats(), Rule(ZERO, MUL, 6), m, [a, r])
    ensures Effect(Nats(), Rule(ZERO, MUL, 6), m, [a, r]) == ZeroMulEffect(m, a, r)
  {
    hide Program, Leads, Standing, Inputs;
    ZeroMulMeans(m, a, r);
    LeadsZeroMul(m, a, r);
    assert EndSet([a, r]) == {a, r};
    BodyIs(6, ZERO_MUL, Rule(ZERO, MUL, 6), m, [a, r], 2, ZeroMulScript(m, a, r), ZeroMulEffect(m, a, r));
  }

  lemma Add1MulOk(m: set<NodeId>, p: End, a: End, r: End)
    requires Inputs(m, [p, a, r])
    ensures BodyOk(Nats(), Rule(ADD1, MUL, 7), m, [p, a, r])
    ensures Effect(Nats(), Rule(ADD1, MUL, 7), m, [p, a, r]) == Add1MulEffect(m, p, a, r)
  {
    hide Program, Leads, Standing;
    assert p in [p, a, r];
    Add1MulMeans(m, p, a, r);
    LeadsAdd1Mul(m, p, a, r);
    assert EndSet([p, a, r]) == {p, a, r};
    BodyIs(7, ADD1_MUL, Rule(ADD1, MUL, 7), m, [p, a, r], 7, Add1MulScript(m, p, a, r), Add1MulEffect(m, p, a, r));
  }

  // ----- The system -----

  lemma Counts()
    ensures AuxCount(ZERO) == 0 && AuxCount(ERASE) == 0 && AuxCount(ADD1) == 1
    ensures AuxCount(ADD) == 2 && AuxCount(MUL) == 2 && AuxCount(DUP) == 2
  {
    assert AuxCountFrom(ADD, 3) == AuxCountFrom(MUL, 3) == AuxCountFrom(DUP, 3) == 0;
    assert AuxCountFrom(ADD, 2) == AuxCountFrom(MUL, 2) == AuxCountFrom(DUP, 2) == 1;
    assert AuxCountFrom(ADD, 1) == AuxCountFrom(MUL, 1) == AuxCountFrom(DUP, 1) == 2;
    assert AuxCountFrom(ADD1, 2) == 0 && AuxCountFrom(ADD1, 1) == 0;
  }

  lemma BodiesOk(rule: Rule, m: set<NodeId>, ins: seq<End>)
    requires rule in Rules() && Inputs(m, ins) && |ins| == AuxCount(rule.left) + AuxCount(rule.right)
    ensures BodyOk(Nats(), rule, m, ins)
  {
    Counts();
    if |ins| == 0 { assert ins == []; }
    else if |ins| == 1 { assert ins == [ins[0]]; }
    else if |ins| == 2 { assert ins == [ins[0], ins[1]]; }
    else { assert ins == [ins[0], ins[1], ins[2]]; }
    if rule == Rule(ZERO, ADD, 0) { ZeroAddOk(m, ins[0], ins[1]); }
    else if rule == Rule(ADD1, ADD, 1) { Add1AddOk(m, ins[0], ins[1], ins[2]); }
    else if rule == Rule(ZERO, ERASE, 2) { ZeroEraseOk(m); }
    else if rule == Rule(ADD1, ERASE, 3) { Add1EraseOk(m, ins[0]); }
    else if rule == Rule(ZERO, DUP, 4) { ZeroDupOk(m, ins[0], ins[1]); }
    else if rule == Rule(ADD1, DUP, 5) { Add1DupOk(m, ins[0], ins[1], ins[2]); }
    else if rule == Rule(ZERO, MUL, 6) { ZeroMulOk(m, ins[0], ins[1]); }
    else { Add1MulOk(m, ins[0], ins[1], ins[2]); }
  }

  lemma NatsGood()
    ensures GoodSystem(Nats())
  {
    hide Program, BodyOk, Effect;
    forall rule | rule in Nats().rules
      ensures GoodRule(Nats(), rule) && rule.left != rule.right
    {
      forall m, ins | Inputs(m, ins) && |ins| == AuxCount(rule.left) + AuxCount(rule.right)
        ensures BodyOk(Nats(), rule, m, ins)
      {
        BodiesOk(rule, m, ins);
      }
    }
  }

  // The rule for a constructor of numbers against one that takes numbers apart.
  lemma RuleFor(a: Ctor, b: Ctor)
    requires a == ZERO || a == ADD1
    requires b == ADD || b == ERASE || b == DUP || b == MUL
    ensures FindRule(Rules(), a, b) == FindRule(Rules(), b, a)
    ensures FindRule(Rules(), a, b)
         == Some(Rule(a, b, (if b == ADD then 0 else if b == ERASE then 2 else if b == DUP then 4 else 6)
                            + if a == ZERO then 0 else 1))
  {
    var rules := Rules();
    assert FindRule(rules[8..], a, b) == FindRule(rules[8..], b, a) == None;
    assert rules[7..][1..] == rules[8..] && rules[6..][1..] == rules[7..] && rules[5..][1..] == rules[6..];
    assert rules[4..][1..] == rules[5..] && rules[3..][1..] == rules[4..] && rules[2..][1..] == rules[3..];
    assert rules[1..][1..] == rules[2..] && rules[0..] == rules;
  }
}
