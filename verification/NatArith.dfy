/**
 Numbers as nets, and what `add`, `nat-erase`, `nat-dup` and `mul` make of them, under any order of tasks.
 */
module NatArith {
  import opened Links
  import opened Script
  import opened Machine
  import opened Net
  import opened Confluence
  import opened NatRules
  import opened NatEffects
  import opened NatSystem

  // What `x` faces is the number `k`, made of exactly the agents `F`.
  ghost predicate Number(net: Net, x: End, k: nat, F: set<NodeId>)
    decreases k
  {
    && Matching(net.links) && Outer(net.links, x)
    && Partner(net.links, x).Principal?
    && var n := Partner(net.links, x).node;
    && n in F && n in net.nodes
    && if k == 0 then net.nodes[n] == ZeroNode(n) && F == {n}
       else
         && 0 in net.nodes[n].slots && net.nodes[n].slots[0].WireEnd?
         && net.nodes[n] == Add1Node(n, net.nodes[n].slots[0])
         && Number(net, net.nodes[n].slots[0], k - 1, F - {n})
  }

  ghost predicate SubLinks(L: Links, M: Links) {
    Matching(L) && Matching(M) && forall e :: e in L ==> e in M && M[e] == L[e]
  }

  lemma LaterPartner(L: Links, M: Links, x: End)
    requires SubLinks(L, M) && Outer(L, x) && Outer(M, x) && Outer(M, Partner(L, x))
    ensures Partner(M, x) == Partner(L, x)
  {
    var A := M - L.Keys;
    assert M == L + A;
    forall e | e in A
      ensures A[e] in A && A[A[e]] == e && A[e] != e
    {
      if M[e] in L { assert false; }
    }
    assert Matching(A);
    PartnerInvolution(L, x);
    PartnerUnion(L, A, x);
  }

  // From `net`, handling `tasks` leads to `last`: the agents `gone` are replaced by `made`, the others stay.
  ghost predicate Reduces(net: Net, held: set<End>, gone: set<NodeId>, tasks: seq<Task>, last: Net, made: set<NodeId>) {
    && WellFormed(net, held) && WellFormed(last, held)
    && Handles(Nats(), net, tasks, last)
    && SubLinks(net.links, last.links)
    && gone <= net.nodes.Keys
    && made !! (net.nodes.Keys - gone)
    && last.nodes.Keys == net.nodes.Keys - gone + made
    && forall n :: n in net.nodes && n !in gone ==> last.nodes[n] == net.nodes[n]
  }

  // `y` is held from outside the agents `gone`.
  ghost predicate Watch(net: Net, held: set<End>, gone: set<NodeId>, y: End) {
    if y.Principal? then y.node in net.nodes && y.node !in gone && y in net.links
    else
      || y in held
      || exists n, i :: n in net.nodes && n !in gone && i in net.nodes[n].slots && net.nodes[n].slots[i] == y
  }

  lemma WatchOuter(net: Net, held: set<End>, gone: set<NodeId>, tasks: seq<Task>, last: Net, made: set<NodeId>, y: End)
    requires Reduces(net, held, gone, tasks, last, made) && Watch(net, held, gone, y)
    ensures Outer(net.links, y) && Outer(last.links, y) && Watch(last, held, made, y)
  {
    if y.WireEnd? && y !in held {
      var n, i :| n in net.nodes && n !in gone && i in net.nodes[n].slots && net.nodes[n].slots[i] == y;
      assert n in net.nodes.Keys && n in last.nodes && n !in made;
      assert last.nodes[n].slots[i] == y;
      assert InSlot(net.nodes, y) && InSlot(last.nodes, y);
    } else if y.Principal? {
      assert y.node in net.nodes.Keys;
    }
  }

  lemma WatchLess(net: Net, held: set<End>, gone: set<NodeId>, less: set<NodeId>, y: End)
    requires Watch(net, held, gone, y) && less <= gone
    ensures Watch(net, held, less, y)
  {
  }

  lemma WatchSlot(net: Net, held: set<End>, gone: set<NodeId>, n: NodeId, i: nat)
    requires n in net.nodes && n !in gone && i in net.nodes[n].slots && net.nodes[n].slots[i].WireEnd?
    ensures Watch(net, held, gone, net.nodes[n].slots[i])
  {
  }

  lemma HeadStays(net: Net, held: set<End>, gone: set<NodeId>, tasks: seq<Task>, last: Net, made: set<NodeId>, x: End)
    requires Reduces(net, held, gone, tasks, last, made) && Watch(net, held, gone, x)
    requires Outer(net.links, x) && Partner(net.links, x).Principal?
    requires Partner(net.links, x).node in net.nodes && Partner(net.links, x).node !in gone
    ensures var n := Partner(net.links, x).node;
            && Matching(last.links) && Outer(last.links, x) && Partner(last.links, x) == Principal(n)
            && n in last.nodes && last.nodes[n] == net.nodes[n]
  {
    hide WellFormed, Handles, Watch;
    PartnerInvolution(net.links, x);
    WatchOuter(net, held, gone, tasks, last, made, x);
    LaterPartner(net.links, last.links, x);
    assert Partner(net.links, x).node in net.nodes.Keys;
  }

  // A number is left alone by reductions elsewhere.
  lemma {:induction false} NumberStays(
    net: Net, held: set<End>, gone: set<NodeId>, tasks: seq<Task>, last: Net, made: set<NodeId>,
    x: End, k: nat, F: set<NodeId>)
    requires Reduces(net, held, gone, tasks, last, made) && Number(net, x, k, F) && F !! gone
    requires Watch(net, held, gone, x)
    ensures Number(last, x, k, F)
    decreases k
  {
    hide Reduces, Watch, Partner, Outer, Matching;
    HeadStays(net, held, gone, tasks, last, made, x);
    if k > 0 {
      var n := Partner(net.links, x).node;
      WatchSlot(net, held, gone, n, 0);
      NumberStays(net, held, gone, tasks, last, made, net.nodes[n].slots[0], k - 1, F - {n});
    }
  }

  lemma {:induction false} NumberNodes(net: Net, x: End, k: nat, F: set<NodeId>)
    requires Number(net, x, k, F)
    ensures F <= net.nodes.Keys
    ensures forall n :: n in F ==> net.nodes[n].ctor == ZERO || net.nodes[n].ctor == ADD1
    decreases k
  {
    if k > 0 {
      var p := Partner(net.links, x);
      NumberNodes(net, net.nodes[p.node].slots[0], k - 1, F - {p.node});
    }
  }

  // ----- One interaction -----

  lemma OneStep(net: Net, held: set<End>, l: NodeId, r: NodeId)
    requires WellFormed(net, held) && Ready(Nats(), net, l, r)
    ensures Reduces(net, held, {l, r}, [Task(l, r)], Interact(Nats(), net, l, r),
                    TaskEffect(Nats(), net, l, r).nodes.Keys)
    ensures Interact(Nats(), net, l, r).links == net.links + TaskEffect(Nats(), net, l, r).links
    ensures net.links.Keys !! TaskEffect(Nats(), net, l, r).links.Keys
    ensures TaskEffect(Nats(), net, l, r).wires !! net.wires
    ensures l != r && Inputs({l, r}, TaskIns(net, l, r))
  {
    hide TaskEffect, FindRule, Nats, Handles, TaskIns, Partner, Held, AuxEnds, Conserved, Fresh, Built;
    NatsGood();
    InteractWellFormed(Nats(), net, held, l, r);
    ReadyDistinct(Nats(), net, l, r);
    TaskEffectGood(Nats(), net, held, l, r);
    TaskInputs(net, held, l, r);
    var b := TaskEffect(Nats(), net, l, r);
    NewNames(net, held, l, r, b);
    ReplaceLinks(net, held, l, r, b);
    StepRun(net, l, r);
    ReplaceKeys(net, {l, r}, b);
    SubLinksUnion(net.links, b.links);
  }

  lemma ReplaceKeys(net: Net, gone: set<NodeId>, b: Build)
    requires gone <= net.nodes.Keys && b.nodes.Keys !! net.nodes.Keys
    ensures var last := Replace(net, gone, b);
            && b.nodes.Keys !! (net.nodes.Keys - gone)
            && last.nodes.Keys == net.nodes.Keys - gone + b.nodes.Keys
            && forall n :: n in net.nodes && n !in gone ==> last.nodes[n] == net.nodes[n]
  {
    forall n | n in net.nodes && n !in gone
      ensures n in Replace(net, gone, b).nodes && Replace(net, gone, b).nodes[n] == net.nodes[n]
    {
      assert n in net.nodes.Keys;
    }
  }

  lemma SubLinksUnion(L: Links, A: Links)
    requires Matching(L) && Matching(A) && L.Keys !! A.Keys
    ensures SubLinks(L, L + A)
  {
    UnionMatching(L, A);
    forall e | e in L
      ensures e in L + A && (L + A)[e] == L[e]
    {
      assert e in L.Keys;
    }
  }

  lemma StepRun(net: Net, l: NodeId, r: NodeId)
    requires Matching(net.links) && Ready(Nats(), net, l, r)
    ensures Handles(Nats(), net, [Task(l, r)], Interact(Nats(), net, l, r))
  {
    hide Nats;
    assert [Task(l, r)][1..] == [];
  }

  lemma {:induction false} RunConcat(sys: System, net: Net, ts: seq<Task>, mid: Net, us: seq<Task>, last: Net)
    requires Handles(sys, net, ts, mid) && Handles(sys, mid, us, last)
    ensures Handles(sys, net, ts + us, last)
    decreases |ts|
  {
    hide TaskEffect, FindRule, Replace;
    if ts == [] {
      assert ts + us == us;
    } else {
      assert (ts + us)[1..] == ts[1..] + us;
      RunConcat(sys, Interact(sys, net, ts[0].left, ts[0].right), ts[1..], mid, us, last);
    }
  }

  lemma ReducesThen(net: Net, held: set<End>, gone1: set<NodeId>, ts: seq<Task>, mid: Net, made1: set<NodeId>,
                    gone2: set<NodeId>, us: seq<Task>, last: Net, made2: set<NodeId>)
    requires Reduces(net, held, gone1, ts, mid, made1) && Reduces(mid, held, gone2, us, last, made2)
    ensures Reduces(net, held, gone1 + (gone2 - made1), ts + us, last, made1 - gone2 + made2)
  {
    hide Nats, WellFormed, Handles;
    RunConcat(Nats(), net, ts, mid, us, last);
    var gone, made := gone1 + (gone2 - made1), made1 - gone2 + made2;
    forall n | n in net.nodes && n !in gone
      ensures n in last.nodes && last.nodes[n] == net.nodes[n]
    {
      assert n in net.nodes.Keys - gone1 && n in mid.nodes && mid.nodes[n] == net.nodes[n];
      assert n !in made1 && n !in gone2;
    }
    assert last.nodes.Keys == net.nodes.Keys - gone + made;
  }

  // ----- What each pair of agents turns into -----

  lemma AuxOfNumbers(z: NodeId, e: End)
    requires e.WireEnd?
    ensures AuxEnds(ZeroNode(z)) == [] && AuxEnds(Add1Node(z, e)) == [e]
  {
    var one := Add1Node(z, e);
    assert AuxFrom(one, 2) == [] && AuxFrom(one, 1) == [] && AuxFrom(one, 0) == [e] + [];
    assert AuxFrom(ZeroNode(z), 1) == [];
  }

  lemma AuxOfOthers(a: NodeId, o: End, r: End, ctor: Ctor)
    requires o.WireEnd? && r.WireEnd? && Binary(ctor)
    ensures AuxEnds(BinaryNode(ctor, a, o, r)) == [o, r] && AuxEnds(DupNode(a, o, r)) == [o, r]
    ensures AuxEnds(EraseNode(a)) == []
  {
    var b, d := BinaryNode(ctor, a, o, r), DupNode(a, o, r);
    assert AuxFrom(b, 3) == [] && AuxFrom(b, 2) == [r] + [] && AuxFrom(b, 1) == [o] + [r];
    assert AuxFrom(d, 3) == [] && AuxFrom(d, 2) == [r] + [] && AuxFrom(d, 1) == [o] + [r];
    assert AuxFrom(EraseNode(a), 1) == [];
  }

  // `z`, at the head of a number, faces the principal port of `a`.
  ghost predicate Meets(net: Net, held: set<End>, z: NodeId, a: NodeId) {
    && WellFormed(net, held) && z in net.nodes && a in net.nodes
    && Principal(a) in net.links && Partner(net.links, Principal(a)) == Principal(z)
    && (net.nodes[z].ctor == ZERO || net.nodes[z].ctor == ADD1)
    && (net.nodes[a].ctor == ADD || net.nodes[a].ctor == ERASE || net.nodes[a].ctor == DUP || net.nodes[a].ctor == MUL)
  }

  lemma MeetsReady(net: Net, held: set<End>, z: NodeId, a: NodeId)
    requires Meets(net, held, z, a)
    ensures Matching(net.links) && z != a && Ready(Nats(), net, z, a)
    ensures Inputs({z, a}, TaskIns(net, z, a))
    ensures TaskEffect(Nats(), net, z, a)
         == Effect(Nats(), FindRule(Rules(), net.nodes[z].ctor, net.nodes[a].ctor).value, {z, a}, TaskIns(net, z, a))
  {
    hide Effect, TaskIns, Rules, Program, Conserved, Fresh, Built, FindRule;
    PartnerInvolution(net.links, Principal(a));
    RuleFor(net.nodes[z].ctor, net.nodes[a].ctor);
    TaskInputs(net, held, z, a);
  }

  lemma ZeroAddStep(net: Net, held: set<End>, z: NodeId, a: NodeId, o: End, r: End)
    requires Meets(net, held, z, a) && o.WireEnd? && r.WireEnd?
    requires net.nodes[z] == ZeroNode(z) && net.nodes[a] == BinaryNode(ADD, a, o, r)
    ensures z != a && TaskEffect(Nats(), net, z, a) == ZeroAddEffect({z, a}, o, r)
  {
    hide Effect, Meets, Rules, Program, TaskEffect, AuxEnds, Inputs, ZeroAddEffect;
    MeetsReady(net, held, z, a);
    RuleFor(ZERO, ADD);
    AuxOfNumbers(z, o);
    AuxOfOthers(a, o, r, ADD);
    assert TaskIns(net, z, a) == [o, r];
    ZeroAddOk({z, a}, o, r);
  }

  lemma Add1AddStep(net: Net, held: set<End>, z: NodeId, a: NodeId, e: End, o: End, r: End)
    requires Meets(net, held, z, a) && e.WireEnd? && o.WireEnd? && r.WireEnd?
    requires net.nodes[z] == Add1Node(z, e) && net.nodes[a] == BinaryNode(ADD, a, o, r)
    ensures z != a && TaskEffect(Nats(), net, z, a) == Add1AddEffect({z, a}, e, o, r)
  {
    hide Effect, Meets, Rules, Program, TaskEffect, AuxEnds, Inputs, Add1AddEffect;
    MeetsReady(net, held, z, a);
    RuleFor(ADD1, ADD);
    AuxOfNumbers(z, e);
    AuxOfOthers(a, o, r, ADD);
    assert TaskIns(net, z, a) == [e, o, r];
    Add1AddOk({z, a}, e, o, r);
  }

  lemma ZeroEraseStep(net: Net, held: set<End>, z: NodeId, a: NodeId)
    requires Meets(net, held, z, a)
    requires net.nodes[z] == ZeroNode(z) && net.nodes[a] == EraseNode(a)
    ensures z != a && TaskEffect(Nats(), net, z, a) == Start({z, a}, {})
  {
    hide Effect, Meets, Rules, Program, TaskEffect, AuxEnds, Inputs;
    MeetsReady(net, held, z, a);
    RuleFor(ZERO, ERASE);
    AuxOfNumbers(z, WireEnd(Wire({}, 0), false));
    AuxOfOthers(a, WireEnd(Wire({}, 0), false), WireEnd(Wire({}, 0), false), ADD);
    assert TaskIns(net, z, a) == [];
    ZeroEraseOk({z, a});
  }

  lemma Add1EraseStep(net: Net, held: set<End>, z: NodeId, a: NodeId, e: End)
    requires Meets(net, held, z, a) && e.WireEnd?
    requires net.nodes[z] == Add1Node(z, e) && net.nodes[a] == EraseNode(a)
    ensures z != a && TaskEffect(Nats(), net, z, a) == Add1EraseEffect({z, a}, e)
  {
    hide Effect, Meets, Rules, Program, TaskEffect, AuxEnds, Inputs, Add1EraseEffect;
    MeetsReady(net, held, z, a);
    RuleFor(ADD1, ERASE);
    AuxOfNumbers(z, e);
    AuxOfOthers(a, e, e, ADD);
    assert TaskIns(net, z, a) == [e];
    Add1EraseOk({z, a}, e);
  }

  lemma ZeroDupStep(net: Net, held: set<End>, z: NodeId, a: NodeId, f: End, s: End)
    requires Meets(net, held, z, a) && f.WireEnd? && s.WireEnd?
    requires net.nodes[z] == ZeroNode(z) && net.nodes[a] == DupNode(a, f, s)
    ensures z != a && TaskEffect(Nats(), net, z, a) == ZeroDupEffect({z, a}, f, s)
  {
    hide Effect, Meets, Rules, Program, TaskEffect, AuxEnds, Inputs, ZeroDupEffect;
    MeetsReady(net, held, z, a);
    RuleFor(ZERO, DUP);
    AuxOfNumbers(z, f);
    AuxOfOthers(a, f, s, ADD);
    assert TaskIns(net, z, a) == [f, s];
    ZeroDupOk({z, a}, f, s);
  }

  lemma Add1DupStep(net: Net, held: set<End>, z: NodeId, a: NodeId, e: End, f: End, s: End)
    requires Meets(net, held, z, a) && e.WireEnd? && f.WireEnd? && s.WireEnd?
    requires net.nodes[z] == Add1Node(z, e) && net.nodes[a] == DupNode(a, f, s)
    ensures z != a && TaskEffect(Nats(), net, z, a) == Add1DupEffect({z, a}, e, f, s)
  {
    hide Effect, Meets, Rules, Program, TaskEffect, AuxEnds, Inputs, Add1DupEffect;
    MeetsReady(net, held, z, a);
    RuleFor(ADD1, DUP);
    AuxOfNumbers(z, e);
    AuxOfOthers(a, f, s, ADD);
    assert TaskIns(net, z, a) == [e, f, s];
    Add1DupOk({z, a}, e, f, s);
  }

  lemma ZeroMulStep(net: Net, held: set<End>, z: NodeId, a: NodeId, o: End, r: End)
    requires Meets(net, held, z, a) && o.WireEnd? && r.WireEnd?
    requires net.nodes[z] == ZeroNode(z) && net.nodes[a] == BinaryNode(MUL, a, o, r)
    ensures z != a && TaskEffect(Nats(), net, z, a) == ZeroMulEffect({z, a}, o, r)
  {
    hide Effect, Meets, Rules, Program, TaskEffect, AuxEnds, Inputs, ZeroMulEffect;
    MeetsReady(net, held, z, a);
    RuleFor(ZERO, MUL);
    AuxOfNumbers(z, o);
    AuxOfOthers(a, o, r, MUL);
    assert TaskIns(net, z, a) == [o, r];
    ZeroMulOk({z, a}, o, r);
  }

  lemma Add1MulStep(net: Net, held: set<End>, z: NodeId, a: NodeId, e: End, o: End, r: End)
    requires Meets(net, held, z, a) && e.WireEnd? && o.WireEnd? && r.WireEnd?
    requires net.nodes[z] == Add1Node(z, e) && net.nodes[a] == BinaryNode(MUL, a, o, r)
    ensures z != a && TaskEffect(Nats(), net, z, a) == Add1MulEffect({z, a}, e, o, r)
  {
    hide Effect, Meets, Rules, Program, TaskEffect, AuxEnds, Inputs, Add1MulEffect;
    MeetsReady(net, held, z, a);
    RuleFor(ADD1, MUL);
    AuxOfNumbers(z, e);
    AuxOfOthers(a, o, r, MUL);
    assert TaskIns(net, z, a) == [e, o, r];
    Add1MulOk({z, a}, e, o, r);
  }

  // ----- Following what was linked -----

  lemma LinkedPrincipal(L: Links, n: NodeId, e: End)
    requires Matching(L) && Principal(n) !in L && e !in L && e.WireEnd?
    ensures Matching(Link(L, Principal(n), e)) && Partner(Link(L, Principal(n), e), Principal(n)) == Partner(L, e)
  {
    JoinPartner(L, Principal(n), e, Principal(n));
  }

  // Whoever faced `r` now faces what `l` leads to.
  lemma LinkedWatcher(L: Links, l: End, r: End, y: End)
    requires Matching(L) && l !in L && r !in L && l != r && Outer(L, y) && Outer(Link(L, l, r), y)
    requires r.WireEnd? && Partner(L, r) == y && (l.WireEnd? ==> Partner(L, l) != r)
    ensures Matching(Link(L, l, r)) && Partner(Link(L, l, r), y) == Walk(L, l)
  {
    PartnerInvolution(L, r);
    JoinPartner(L, l, r, y);
    if l.WireEnd? {
      PartnerInvolution(L, l);
    }
  }

  // A wire whose other end was linked to a principal port, to a wire end, or to nothing.
  lemma AcrossWire(M: Links, x: End)
    requires Matching(M) && x.WireEnd? && x !in M
    ensures x.Mate() !in M ==> Partner(M, x) == x.Mate()
    ensures x.Mate() in M && M[x.Mate()].Principal? ==> Partner(M, x) == M[x.Mate()]
  {
    if x.Mate() in M {
      UnlinkMatching(M, x.Mate());
      assert M[x.Mate()] !in Unlink(M, x.Mate());
      assert Partner(M, x) == Walk(Unlink(M, x.Mate()), M[x.Mate()]);
    }
  }

  lemma AcrossNewWire(L: Links, x: End, r: End)
    requires Matching(L) && x.WireEnd? && r.WireEnd? && x !in L && x.Mate() !in L && r !in L && r != x && r != x.Mate()
    ensures Matching(Link(L, x.Mate(), r)) && Partner(Link(L, x.Mate(), r), x) == Partner(L, r)
  {
    LinkMatching(L, x.Mate(), r);
    UnlinkAdded(L, x.Mate(), r);
  }

  lemma WatchNow(net: Net, held: set<End>, gone: set<NodeId>, y: End)
    requires WellFormed(net, held) && Watch(net, held, gone, y)
    ensures Matching(net.links) && Outer(net.links, y)
  {
    if y.WireEnd? && y !in held {
      assert InSlot(net.nodes, y);
    }
  }

  lemma WatchStays(net: Net, held: set<End>, gone: set<NodeId>, tasks: seq<Task>, last: Net, made: set<NodeId>,
                   more: set<NodeId>, y: End)
    requires Reduces(net, held, gone, tasks, last, made) && Watch(net, held, gone + more, y)
    requires more <= net.nodes.Keys
    ensures Watch(last, held, made + more, y)
  {
    hide WellFormed, Handles;
    if y.WireEnd? && y !in held {
      var n, i :| n in net.nodes && n !in gone + more && i in net.nodes[n].slots && net.nodes[n].slots[i] == y;
      assert n in net.nodes.Keys - gone && n in last.nodes && n !in made;
      assert last.nodes[n].slots[i] == y;
    } else if y.Principal? {
      assert y.node in net.nodes.Keys - gone;
    }
  }

  // The same number seen from another end, or after a reduction that left its agents alone.
  lemma NumberMoves(
    net: Net, held: set<End>, gone: set<NodeId>, tasks: seq<Task>, last: Net, made: set<NodeId>,
    x: End, x': End, k: nat, F: set<NodeId>)
    requires Reduces(net, held, gone, tasks, last, made) && Number(net, x, k, F) && F !! gone
    requires Matching(last.links) && Outer(last.links, x') && Partner(last.links, x') == Partner(net.links, x)
    ensures Number(last, x', k, F)
  {
    hide Reduces, Watch, Partner, Outer, Matching;
    var n := Partner(net.links, x).node;
    NodeStays(net, held, gone, tasks, last, made, n);
    if k > 0 {
      WatchSlot(net, held, gone, n, 0);
      NumberStays(net, held, gone, tasks, last, made, net.nodes[n].slots[0], k - 1, F - {n});
    }
  }

  lemma NodeStays(net: Net, held: set<End>, gone: set<NodeId>, tasks: seq<Task>, last: Net, made: set<NodeId>,
                  n: NodeId)
    requires Reduces(net, held, gone, tasks, last, made) && n in net.nodes && n !in gone
    ensures n in last.nodes && last.nodes[n] == net.nodes[n] && n !in made
  {
    hide WellFormed, Handles;
    assert n in net.nodes.Keys - gone;
  }

  lemma ReducesKeep(net: Net, held: set<End>, gone: set<NodeId>, tasks: seq<Task>, last: Net, made: set<NodeId>,
                    kept: set<NodeId>)
    requires Reduces(net, held, gone, tasks, last, made) && kept <= net.nodes.Keys && kept !! gone
    ensures Reduces(net, held, gone + kept, tasks, last, made + kept)
  {
    hide WellFormed, Handles, SubLinks;
    assert last.nodes.Keys == net.nodes.Keys - (gone + kept) + (made + kept);
  }

  // `mid` is `net` after `z` met `a` and left `b` behind.
  ghost predicate Stepped(net: Net, held: set<End>, z: NodeId, a: NodeId, b: Build, mid: Net) {
    && Reduces(net, held, {z, a}, [Task(z, a)], mid, b.nodes.Keys)
    && mid.links == net.links + b.links && net.links.Keys !! b.links.Keys
    && (forall n :: n in b.nodes ==> n in mid.nodes && mid.nodes[n] == b.nodes[n])
    && b.nodes.Keys !! net.nodes.Keys && b.wires !! net.wires
  }

  lemma DoStep(net: Net, held: set<End>, z: NodeId, a: NodeId, b: Build)
    requires Meets(net, held, z, a) && TaskEffect(Nats(), net, z, a) == b
    ensures Stepped(net, held, z, a, b, Interact(Nats(), net, z, a))
  {
    hide Effect, FindRule, Nats, Reduces, Ready, TaskEffect;
    MeetsReady(net, held, z, a);
    OneStep(net, held, z, a);
    StepNames(net, held, z, a);
  }

  lemma StepReduces(net: Net, held: set<End>, z: NodeId, a: NodeId, b: Build, mid: Net, made: set<NodeId>)
    requires Stepped(net, held, z, a, b, mid) && b.nodes.Keys == made
    ensures Reduces(net, held, {z, a}, [Task(z, a)], mid, made)
    ensures WellFormed(mid, held)
  {
    hide WellFormed, Handles;
  }

  lemma StepNames(net: Net, held: set<End>, l: NodeId, r: NodeId)
    requires WellFormed(net, held) && Matching(net.links) && Ready(Nats(), net, l, r)
    ensures TaskEffect(Nats(), net, l, r).nodes.Keys !! net.nodes.Keys
  {
    hide Effect, FindRule, Nats, TaskEffect, Partner, TaskIns, Conserved, Fresh, Built;
    NatsGood();
    ReadyDistinct(Nats(), net, l, r);
    TaskEffectGood(Nats(), net, held, l, r);
    NewNames(net, held, l, r, TaskEffect(Nats(), net, l, r));
  }

  lemma MeetsNumber(net: Net, held: set<End>, a: NodeId, k: nat, F: set<NodeId>)
    requires WellFormed(net, held) && a in net.nodes && Number(net, Principal(a), k, F)
    requires net.nodes[a].ctor == ADD || net.nodes[a].ctor == ERASE || net.nodes[a].ctor == DUP
               || net.nodes[a].ctor == MUL
    ensures var z := Partner(net.links, Principal(a)).node; Meets(net, held, z, a) && z in F
    ensures F <= net.nodes.Keys
  {
    hide WellFormed, Partner;
    NumberNodes(net, Principal(a), k, F);
  }

  lemma StepLinked(net: Net, held: set<End>, z: NodeId, a: NodeId, b: Build, mid: Net, x: End)
    requires Stepped(net, held, z, a, b, mid) && x in b.links
    ensures SubLinks(net.links, mid.links)
    ensures x !in net.links && x in mid.links && mid.links[x] == b.links[x]
    ensures b.links[x] !in net.links && b.links[x] in mid.links && mid.links[b.links[x]] == x && b.links[x] != x
  {
    hide WellFormed, Handles;
    assert x in b.links.Keys && mid.links[x] == b.links[x];
    assert mid.links[mid.links[x]] == x;
    if b.links[x] in net.links {
      assert false;
    }
  }

  lemma LinkSub(L: Links, M: Links, l: End, r: End)
    requires SubLinks(L, M) && l !in L && r !in L && l != r && l in M && M[l] == r && r in M && M[r] == l
    ensures SubLinks(Link(L, l, r), M)
  {
    LinkMatching(L, l, r);
  }

  lemma NumberStands(net: Net, x: End, k: nat, F: set<NodeId>)
    requires Number(net, x, k, F)
    ensures Matching(net.links) && Outer(net.links, x) && Partner(net.links, x).Principal?
  {
  }

  // A principal port made in the step and linked to `e` faces what `e` faced.
  lemma StepPrincipal(net: Net, held: set<End>, z: NodeId, a: NodeId, b: Build, mid: Net, n: NodeId, e: End)
    requires Stepped(net, held, z, a, b, mid) && e.WireEnd? && Outer(net.links, e)
    requires Principal(n) in b.links && b.links[Principal(n)] == e
    requires Partner(net.links, e).Principal?
    ensures Matching(mid.links) && Outer(mid.links, Principal(n))
    ensures Partner(mid.links, Principal(n)) == Partner(net.links, e)
  {
    hide WellFormed, Handles, Partner;
    var L, M, p := net.links, mid.links, Partner(net.links, e);
    PartnerInvolution(L, e);
    StepLinked(net, held, z, a, b, mid, Principal(n));
    LinkedPrincipal(L, n, e);
    var L' := Link(L, Principal(n), e);
    LinkSub(L, M, Principal(n), e);
    LaterPartner(L', M, Principal(n));
  }

  // ----- `nat-erase` -----

  // The number at the principal port of `a` and everything of it, and nothing else, goes.
  lemma {:induction false} ReduceErase(net: Net, held: set<End>, a: NodeId, k: nat, F: set<NodeId>)
    returns (tasks: seq<Task>, last: Net)
    requires WellFormed(net, held) && a in net.nodes && net.nodes[a] == EraseNode(a) && a !in F
    requires Number(net, Principal(a), k, F)
    ensures Reduces(net, held, {a} + F, tasks, last, {}) && |tasks| == k + 1
    decreases k
  {
    hide WellFormed, Partner, Reduces, TaskEffect, Interact, Meets, Outer, Matching, Stepped, Nats, Add1EraseEffect,
      Add1Node;
    var z := Partner(net.links, Principal(a)).node;
    MeetsNumber(net, held, a, k, F);
    var mid := Interact(Nats(), net, z, a);
    if k == 0 {
      ZeroEraseStep(net, held, z, a);
      DoStep(net, held, z, a, Start({z, a}, {}));
      tasks, last := [Task(z, a)], mid;
      StepReduces(net, held, z, a, Start({z, a}, {}), mid, {});
      assert {z, a} == {a} + F;
    } else {
      var e, n := net.nodes[z].slots[0], NodeId({z, a}, 0);
      Add1EraseStep(net, held, z, a, e);
      DoStep(net, held, z, a, Add1EraseEffect({z, a}, e));
      EraseMoves(net, held, z, a, e, mid, k - 1, F - {z});
      var us: seq<Task>;
      us, last := ReduceErase(mid, held, n, k - 1, F - {z});
      ReducesThen(net, held, {z, a}, [Task(z, a)], mid, {n}, {n} + (F - {z}), us, last, {});
      tasks := [Task(z, a)] + us;
      OneReplaced(z, a, n, F);
    }
  }

  lemma OneReplaced(z: NodeId, a: NodeId, n: NodeId, F: set<NodeId>)
    requires z in F && n !in F - {z}
    ensures {z, a} + ({n} + (F - {z}) - {n}) == {a} + F
    ensures {n} - ({n} + (F - {z})) + {} == {}
  {
  }

  lemma EraseMoves(net: Net, held: set<End>, z: NodeId, a: NodeId, e: End, mid: Net, k: nat, F: set<NodeId>)
    requires Stepped(net, held, z, a, Add1EraseEffect({z, a}, e), mid) && F !! {z, a} && F <= net.nodes.Keys
    requires e.WireEnd? && Number(net, e, k, F)
    ensures WellFormed(mid, held) && Reduces(net, held, {z, a}, [Task(z, a)], mid, {NodeId({z, a}, 0)})
    ensures var n := NodeId({z, a}, 0);
            n in mid.nodes && n !in F && mid.nodes[n] == EraseNode(n) && Number(mid, Principal(n), k, F)
  {
    hide WellFormed, Handles, Partner, SubLinks;
    var n, b := NodeId({z, a}, 0), Add1EraseEffect({z, a}, e);
    assert b.nodes.Keys == {n} && n in b.nodes && b.links[Principal(n)] == e;
    StepPrincipal(net, held, z, a, b, mid, n, e);
    NumberMoves(net, held, {z, a}, [Task(z, a)], mid, {n}, e, Principal(n), k, F);
  }

  // ----- `add` -----

  // `m` at the principal port and `n` at the addend become `m + n` at the result, in m + 1 interactions.
  lemma {:induction false} ReduceAdd(
    net: Net, held: set<End>, a: NodeId, o: End, r: End, y: End, m: nat, M: set<NodeId>, n: nat, N: set<NodeId>)
    returns (tasks: seq<Task>, last: Net, F: set<NodeId>)
    requires Adding(net, held, ADD, a, o, r, y, m, M, n, N)
    ensures Reduces(net, held, {a} + M + N, tasks, last, F) && |tasks| == m + 1
    ensures Number(last, y, m + n, F)
    decreases m
  {
    hide WellFormed, Partner, Reduces, TaskEffect, Interact, Meets, Outer, Matching, Stepped, Nats, Watch,
      Add1AddEffect, ZeroAddEffect, BinaryNode;
    var z := Partner(net.links, Principal(a)).node;
    MeetsAdding(net, held, ADD, a, o, r, y, m, M, n, N);
    var mid := Interact(Nats(), net, z, a);
    if m == 0 {
      ZeroAddStep(net, held, z, a, o, r);
      DoStep(net, held, z, a, ZeroAddEffect({z, a}, o, r));
      AddZeroMoves(net, held, z, a, o, r, y, mid, M, n, N);
      tasks, last, F := [Task(z, a)], mid, N;
    } else {
      var e := net.nodes[z].slots[0];
      Add1AddStep(net, held, z, a, e, o, r);
      DoStep(net, held, z, a, Add1AddEffect({z, a}, e, o, r));
      var u, v, x := NodeId({z, a}, 0), NodeId({z, a}, 2), Wire({z, a}, 1);
      assert M - {z} + {z} == M;
      AddMoves(net, held, z, a, e, o, r, y, mid, m - 1, M - {z}, n, N);
      var us: seq<Task>;
      var G: set<NodeId>;
      us, last, G := ReduceAdd(mid, held, u, o, WireEnd(x, false), WireEnd(x, true), m - 1, M - {z}, n, N);
      tasks, F := [Task(z, a)] + us, {v} + G;
      AddDone(net, held, z, a, y, u, v, WireEnd(x, true), mid, us, last, m, M, n, N, G);
    }
  }

  // `a`, an `add` or a `mul`, between two numbers, watched by `y`.
  ghost predicate Adding(net: Net, held: set<End>, ctor: Ctor, a: NodeId, o: End, r: End, y: End,
                         m: nat, M: set<NodeId>, n: nat, N: set<NodeId>) {
    && WellFormed(net, held) && a in net.nodes && net.nodes[a] == BinaryNode(ctor, a, o, r)
    && o.WireEnd? && r.WireEnd?
    && Number(net, Principal(a), m, M) && Number(net, o, n, N)
    && a !in M && a !in N && M !! N
    && Outer(net.links, r) && Partner(net.links, r) == y && Watch(net, held, {a} + M + N, y)
  }

  lemma MeetsAdding(net: Net, held: set<End>, ctor: Ctor, a: NodeId, o: End, r: End, y: End,
                    m: nat, M: set<NodeId>, n: nat, N: set<NodeId>)
    requires Adding(net, held, ctor, a, o, r, y, m, M, n, N) && (ctor == ADD || ctor == MUL)
    ensures var z := Partner(net.links, Principal(a)).node; Meets(net, held, z, a) && z in M
    ensures M <= net.nodes.Keys && N <= net.nodes.Keys
  {
    hide WellFormed, Partner, Meets, Watch;
    MeetsNumber(net, held, a, m, M);
    NumberNodes(net, o, n, N);
  }

  lemma AddZeroMoves(net: Net, held: set<End>, z: NodeId, a: NodeId, o: End, r: End, y: End, mid: Net,
                     M: set<NodeId>, n: nat, N: set<NodeId>)
    requires Adding(net, held, ADD, a, o, r, y, 0, M, n, N) && M == {z}
    requires Stepped(net, held, z, a, ZeroAddEffect({z, a}, o, r), mid)
    ensures Reduces(net, held, {a} + M + N, [Task(z, a)], mid, N)
    ensures Number(mid, y, n, N)
  {
    hide WellFormed, Handles, Partner, Watch, SubLinks, Stepped, Reduces, Outer, Matching;
    var b := ZeroAddEffect({z, a}, o, r);
    assert b.nodes.Keys == {} && o in b.links && b.links[o] == r;
    StepReduces(net, held, z, a, b, mid, {});
    NumberNodes(net, o, n, N);
    WatchLess(net, held, {a} + M + N, {z, a}, y);
    JoinWatcher(net, held, z, a, b, mid, o, r, y);
    NumberMoves(net, held, {z, a}, [Task(z, a)], mid, {}, o, y, n, N);
    ReducesKeep(net, held, {z, a}, [Task(z, a)], mid, {}, N);
    assert {z, a} + N == {a} + M + N && {} + N == N;
  }

  // Whoever faced `r`, now linked to `o`, faces what `o` faced.
  lemma JoinWatcher(net: Net, held: set<End>, z: NodeId, a: NodeId, b: Build, mid: Net, o: End, r: End, y: End)
    requires Stepped(net, held, z, a, b, mid) && b.links == Link(map[], o, r)
    requires o.WireEnd? && r.WireEnd? && Outer(net.links, r) && Partner(net.links, r) == y
    requires Outer(net.links, o) && Partner(net.links, o).Principal? && Watch(net, held, {z, a}, y)
    ensures Matching(mid.links) && Outer(mid.links, y) && Partner(mid.links, y) == Partner(net.links, o)
  {
    hide WellFormed, Handles, Partner, Watch, Reduces;
    assert o in b.links && b.links[o] == r;
    StepLinked(net, held, z, a, b, mid, o);
    StepReduces(net, held, z, a, b, mid, b.nodes.Keys);
    WatchOuter(net, held, {z, a}, [Task(z, a)], mid, b.nodes.Keys, y);
    assert mid.links == Link(net.links, o, r);
    LinkedWatcher(net.links, o, r, y);
    WalkIsPartner(net.links, o);
  }

  lemma WalkIsPartner(L: Links, o: End)
    requires Matching(L) && o.WireEnd? && o !in L
    ensures Walk(L, o) == Partner(L, o)
  {
  }

  // The slot of an agent made in the step is not linked yet.
  lemma StepSlot(net: Net, held: set<End>, z: NodeId, a: NodeId, b: Build, mid: Net, n: NodeId, i: nat)
    requires Stepped(net, held, z, a, b, mid) && n in b.nodes && i in b.nodes[n].slots && b.nodes[n].slots[i].WireEnd?
    ensures Matching(mid.links) && Outer(mid.links, b.nodes[n].slots[i])
  {
    hide Partner, Conserved, Built, Fresh, Handles;
    assert mid.nodes[n].slots[i] == b.nodes[n].slots[i];
    assert InSlot(mid.nodes, b.nodes[n].slots[i]);
  }

  lemma StepWatch(net: Net, held: set<End>, z: NodeId, a: NodeId, b: Build, mid: Net, n: NodeId, i: nat,
                  gone: set<NodeId>)
    requires Stepped(net, held, z, a, b, mid) && n in b.nodes && i in b.nodes[n].slots && b.nodes[n].slots[i].WireEnd?
    requires n !in gone
    ensures Watch(mid, held, gone, b.nodes[n].slots[i])
  {
    hide Partner, WellFormed, Handles, Reduces;
    assert mid.nodes[n].slots[i] == b.nodes[n].slots[i];
  }

  // An end handed over to an agent made in the step still faces the same number.
  lemma StepNumber(net: Net, held: set<End>, z: NodeId, a: NodeId, b: Build, mid: Net, u: NodeId, i: nat,
                   n: nat, N: set<NodeId>)
    requires Stepped(net, held, z, a, b, mid) && u in b.nodes && i in b.nodes[u].slots && b.nodes[u].slots[i].WireEnd?
    requires Number(net, b.nodes[u].slots[i], n, N) && N !! {z, a}
    ensures Number(mid, b.nodes[u].slots[i], n, N)
  {
    hide WellFormed, Handles, Partner, SubLinks;
    var o := b.nodes[u].slots[i];
    StepSlot(net, held, z, a, b, mid, u, i);
    StepSub(net, held, z, a, b, mid);
    PartnerInvolution(net.links, o);
    SubLinksIn(net.links, mid.links, Partner(net.links, o));
    LaterPartner(net.links, mid.links, o);
    NumberMoves(net, held, {z, a}, [Task(z, a)], mid, b.nodes.Keys, o, o, n, N);
  }

  lemma StepSub(net: Net, held: set<End>, z: NodeId, a: NodeId, b: Build, mid: Net)
    requires Stepped(net, held, z, a, b, mid)
    ensures SubLinks(net.links, mid.links)
  {
    hide WellFormed, Handles;
  }

  lemma SubLinksIn(L: Links, M: Links, p: End)
    requires SubLinks(L, M) && p in L
    ensures p in M
  {
  }

  // Whoever faced an end that was linked to a principal port made in the step now faces that port.
  lemma StepWatcher(net: Net, held: set<End>, z: NodeId, a: NodeId, b: Build, mid: Net, n: NodeId, r: End, y: End)
    requires Stepped(net, held, z, a, b, mid) && Principal(n) in b.links && b.links[Principal(n)] == r
    requires r.WireEnd? && Outer(net.links, r) && Partner(net.links, r) == y && Watch(net, held, {z, a}, y)
    ensures Matching(mid.links) && Outer(mid.links, y) && Partner(mid.links, y) == Principal(n)
  {
    hide WellFormed, Handles, Partner, Watch, SubLinks, Stepped, Reduces, Outer, Matching;
    StepLinked(net, held, z, a, b, mid, Principal(n));
    StepReduces(net, held, z, a, b, mid, b.nodes.Keys);
    WatchOuter(net, held, {z, a}, [Task(z, a)], mid, b.nodes.Keys, y);
    StepSub(net, held, z, a, b, mid);
    FollowLink(net.links, mid.links, Principal(n), r, y);
  }

  lemma FollowLink(L: Links, M: Links, p: End, r: End, y: End)
    requires SubLinks(L, M) && p.Principal? && p !in L && r !in L && p in M && M[p] == r && M[r] == p && p != r
               && r in M
    requires r.WireEnd? && Partner(L, r) == y && Outer(L, y) && Outer(M, y)
    ensures Matching(M) && Partner(M, y) == p
  {
    PartnerInvolution(L, r);
    LinkSub(L, M, p, r);
    LinkMatching(L, p, r);
    assert Outer(Link(L, p, r), y);
    LinkedWatcher(L, p, r, y);
    LaterPartner(Link(L, p, r), M, y);
  }

  // What add1 meeting add leaves: the new `add` on the rest, and the new `add1` at the result.
  lemma AddMoves(net: Net, held: set<End>, z: NodeId, a: NodeId, e: End, o: End, r: End, y: End, mid: Net,
                 m: nat, M: set<NodeId>, n: nat, N: set<NodeId>)
    requires Adding(net, held, ADD, a, o, r, y, m + 1, M + {z}, n, N) && z !in M
    requires e.WireEnd? && Number(net, e, m, M)
    requires Stepped(net, held, z, a, Add1AddEffect({z, a}, e, o, r), mid)
    ensures var u, v, x := NodeId({z, a}, 0), NodeId({z, a}, 2), Wire({z, a}, 1);
            && Adding(mid, held, ADD, u, o, WireEnd(x, false), WireEnd(x, true), m, M, n, N)
            && Reduces(net, held, {z, a}, [Task(z, a)], mid, {u, v})
            && v in mid.nodes && mid.nodes[v] == Add1Node(v, WireEnd(x, true))
            && v !in M && v !in N && u !in net.nodes && v !in net.nodes
            && Outer(mid.links, y) && Partner(mid.links, y) == Principal(v)
            && Watch(mid, held, {u} + M + N, y)
  {
    hide WellFormed, Handles, Partner, SubLinks, Watch, Reduces, Stepped, Outer, Matching;
    var u, v, x := NodeId({z, a}, 0), NodeId({z, a}, 2), Wire({z, a}, 1);
    var b := Add1AddEffect({z, a}, e, o, r);
    AddNumbers(net, held, z, a, e, o, r, y, mid, m, M, n, N);
    NumberNodes(net, e, m, M);
    NumberNodes(net, o, n, N);
    assert b.nodes[v].slots[0] == WireEnd(x, true);
    StepWatch(net, held, z, a, b, mid, v, 0, {u} + M + N);
    FreshWire(net, held, z, a, b, mid, u, 2, v, 0);
    AddWatcher(net, held, z, a, e, o, r, y, mid, M, N);
  }

  lemma AddNumbers(net: Net, held: set<End>, z: NodeId, a: NodeId, e: End, o: End, r: End, y: End, mid: Net,
                   m: nat, M: set<NodeId>, n: nat, N: set<NodeId>)
    requires Adding(net, held, ADD, a, o, r, y, m + 1, M + {z}, n, N) && z !in M
    requires e.WireEnd? && Number(net, e, m, M)
    requires Stepped(net, held, z, a, Add1AddEffect({z, a}, e, o, r), mid)
    ensures var u, v, x := NodeId({z, a}, 0), NodeId({z, a}, 2), Wire({z, a}, 1);
            && WellFormed(mid, held) && Reduces(net, held, {z, a}, [Task(z, a)], mid, {u, v})
            && u in mid.nodes && mid.nodes[u] == BinaryNode(ADD, u, o, WireEnd(x, false)) && u !in net.nodes
            && v in mid.nodes && mid.nodes[v] == Add1Node(v, WireEnd(x, true)) && v !in net.nodes
            && Number(mid, Principal(u), m, M) && Number(mid, o, n, N)
  {
    hide WellFormed, Handles, Partner, SubLinks, Watch, Reduces, Stepped, Outer, Matching;
    var u, v, x := NodeId({z, a}, 0), NodeId({z, a}, 2), Wire({z, a}, 1);
    var b := Add1AddEffect({z, a}, e, o, r);
    assert b.nodes.Keys == {u, v} && b.links[Principal(u)] == e;
    StepReduces(net, held, z, a, b, mid, {u, v});
    StepNode(net, held, z, a, b, mid, u);
    StepNode(net, held, z, a, b, mid, v);
    StepPrincipal(net, held, z, a, b, mid, u, e);
    NumberMoves(net, held, {z, a}, [Task(z, a)], mid, {u, v}, e, Principal(u), m, M);
    StepNumber(net, held, z, a, b, mid, u, 1, n, N);
  }

  lemma AddWatcher(net: Net, held: set<End>, z: NodeId, a: NodeId, e: End, o: End, r: End, y: End, mid: Net,
                   M: set<NodeId>, N: set<NodeId>)
    requires Stepped(net, held, z, a, Add1AddEffect({z, a}, e, o, r), mid)
    requires r.WireEnd? && Matching(net.links) && Outer(net.links, r) && Partner(net.links, r) == y
    requires Watch(net, held, {a} + (M + {z}) + N, y) && M <= net.nodes.Keys && N <= net.nodes.Keys
    ensures var u, v := NodeId({z, a}, 0), NodeId({z, a}, 2);
            && Matching(mid.links) && Outer(mid.links, y) && Partner(mid.links, y) == Principal(v)
            && Watch(mid, held, {u} + M + N, y)
  {
    hide WellFormed, Handles, Partner, SubLinks, Watch, Reduces, Stepped, Outer, Matching;
    var u, v := NodeId({z, a}, 0), NodeId({z, a}, 2);
    var b := Add1AddEffect({z, a}, e, o, r);
    assert b.nodes.Keys == {u, v} && Principal(v) in b.links && b.links[Principal(v)] == r;
    StepReduces(net, held, z, a, b, mid, {u, v});
    WatchLess(net, held, {a} + (M + {z}) + N, {z, a}, y);
    StepWatcher(net, held, z, a, b, mid, v, r, y);
    assert {a} + (M + {z}) + N == {z, a} + (M + N);
    WatchStays(net, held, {z, a}, [Task(z, a)], mid, {u, v}, M + N, y);
    WatchLess(mid, held, {u, v} + (M + N), {u} + M + N, y);
  }

  lemma StepNode(net: Net, held: set<End>, z: NodeId, a: NodeId, b: Build, mid: Net, n: NodeId)
    requires Stepped(net, held, z, a, b, mid) && n in b.nodes
    ensures n in mid.nodes && mid.nodes[n] == b.nodes[n] && n !in net.nodes
  {
    hide Reduces;
    assert n in b.nodes.Keys;
  }

  // The two ends of a new wire in two slots face each other.
  lemma FreshWire(net: Net, held: set<End>, z: NodeId, a: NodeId, b: Build, mid: Net,
                  n: NodeId, i: nat, n': NodeId, j: nat)
    requires Stepped(net, held, z, a, b, mid)
    requires n in b.nodes && i in b.nodes[n].slots && b.nodes[n].slots[i].WireEnd?
    requires n' in b.nodes && j in b.nodes[n'].slots && b.nodes[n'].slots[j] == b.nodes[n].slots[i].Mate()
    ensures Matching(mid.links) && Outer(mid.links, b.nodes[n].slots[i])
    ensures Partner(mid.links, b.nodes[n].slots[i]) == b.nodes[n].slots[i].Mate()
  {
    hide WellFormed, Handles, Reduces, Stepped, Partner;
    StepSlot(net, held, z, a, b, mid, n, i);
    StepSlot(net, held, z, a, b, mid, n', j);
    AcrossWire(mid.links, b.nodes[n].slots[i]);
  }

  lemma AddDone(net: Net, held: set<End>, z: NodeId, a: NodeId, y: End, u: NodeId, v: NodeId, x: End, mid: Net,
                us: seq<Task>, last: Net, m: nat, M: set<NodeId>, n: nat, N: set<NodeId>, G: set<NodeId>)
    requires m > 0 && z in M && a !in M && z !in N && a !in N && u !in M && u !in N && v !in M && v !in N && u != v
    requires Reduces(net, held, {z, a}, [Task(z, a)], mid, {u, v})
    requires Reduces(mid, held, {u} + (M - {z}) + N, us, last, G)
    requires v in mid.nodes && mid.nodes[v] == Add1Node(v, x) && x.WireEnd?
    requires Matching(mid.links) && Outer(mid.links, y) && Partner(mid.links, y) == Principal(v)
    requires Watch(mid, held, {u} + (M - {z}) + N, y)
    requires Number(last, x, m - 1 + n, G)
    ensures Reduces(net, held, {a} + M + N, [Task(z, a)] + us, last, {v} + G)
    ensures Number(last, y, m + n, {v} + G)
  {
    hide WellFormed, Handles, Partner, Watch, Reduces;
    ReducesThen(net, held, {z, a}, [Task(z, a)], mid, {u, v}, {u} + (M - {z}) + N, us, last, G);
    assert {z, a} + ({u} + (M - {z}) + N - {u, v}) == {a} + M + N;
    assert {u, v} - ({u} + (M - {z}) + N) + G == {v} + G;
    HeadStays(mid, held, {u} + (M - {z}) + N, us, last, G, y);
    NodeStays(mid, held, {u} + (M - {z}) + N, us, last, G, v);
    assert {v} + G - {v} == G;
  }
}
