/**
 Copying and multiplying numbers.
 */
module NatMul {
  import opened Links
  import opened Script
  import opened Machine
  import opened Net
  import opened Confluence
  import opened NatRules
  import opened NatEffects
  import opened NatSystem
  import opened NatArith

  // ----- `nat-dup` -----

  ghost predicate Copying(net: Net, held: set<End>, d: NodeId, f: End, s: End, yf: End, ys: End,
                          k: nat, F: set<NodeId>) {
    && WellFormed(net, held) && d in net.nodes && net.nodes[d] == DupNode(d, f, s)
    && f.WireEnd? && s.WireEnd? && Number(net, Principal(d), k, F) && d !in F
    && Outer(net.links, f) && Partner(net.links, f) == yf && Watch(net, held, {d} + F, yf)
    && Outer(net.links, s) && Partner(net.links, s) == ys && Watch(net, held, {d} + F, ys)
  }

  // The number at the principal port appears at both results, made of different agents, in k + 1 interactions.
  lemma {:induction false} ReduceDup(
    net: Net, held: set<End>, d: NodeId, f: End, s: End, yf: End, ys: End, k: nat, F: set<NodeId>)
    returns (tasks: seq<Task>, last: Net, F1: set<NodeId>, F2: set<NodeId>)
    requires Copying(net, held, d, f, s, yf, ys, k, F)
    ensures Reduces(net, held, {d} + F, tasks, last, F1 + F2) && |tasks| == k + 1
    ensures Number(last, yf, k, F1) && Number(last, ys, k, F2) && F1 !! F2
    decreases k
  {
    hide WellFormed, Partner, Reduces, TaskEffect, Interact, Meets, Outer, Matching, Stepped, Nats, Watch,
      Add1DupEffect, ZeroDupEffect, DupNode;
    var z := Partner(net.links, Principal(d)).node;
    MeetsCopying(net, held, d, f, s, yf, ys, k, F);
    var mid := Interact(Nats(), net, z, d);
    if k == 0 {
      ZeroDupStep(net, held, z, d, f, s);
      DoStep(net, held, z, d, ZeroDupEffect({z, d}, f, s));
      DupZeroMoves(net, held, z, d, f, s, yf, ys, mid, F);
      tasks, last, F1, F2 := [Task(z, d)], mid, {NodeId({z, d}, 0)}, {NodeId({z, d}, 1)};
    } else {
      var e := net.nodes[z].slots[0];
      Add1DupStep(net, held, z, d, e, f, s);
      DoStep(net, held, z, d, Add1DupEffect({z, d}, e, f, s));
      assert F - {z} + {z} == F;
      DupMoves(net, held, z, d, e, f, s, yf, ys, mid, k - 1, F - {z});
      var n0, n3, n4 := NodeId({z, d}, 0), NodeId({z, d}, 3), NodeId({z, d}, 4);
      var x, w := Wire({z, d}, 1), Wire({z, d}, 2);
      var us: seq<Task>;
      var G1: set<NodeId>, G2: set<NodeId>;
      us, last, G1, G2 := ReduceDup(mid, held, n0, WireEnd(x, false), WireEnd(w, false),
                                    WireEnd(x, true), WireEnd(w, true), k - 1, F - {z});
      tasks, F1, F2 := [Task(z, d)] + us, {n4} + G1, {n3} + G2;
      DupDone(net, held, z, d, yf, ys, n0, n3, n4, WireEnd(x, true), WireEnd(w, true), mid, us, last, k, F, G1, G2);
    }
  }

  lemma MeetsCopying(net: Net, held: set<End>, d: NodeId, f: End, s: End, yf: End, ys: End, k: nat, F: set<NodeId>)
    requires Copying(net, held, d, f, s, yf, ys, k, F)
    ensures var z := Partner(net.links, Principal(d)).node; Meets(net, held, z, d) && z in F
    ensures F <= net.nodes.Keys
  {
    hide WellFormed, Partner, Meets, Watch;
    MeetsNumber(net, held, d, k, F);
  }

  lemma OneZero(net: Net, x: End, n: NodeId)
    requires Matching(net.links) && Outer(net.links, x) && Partner(net.links, x) == Principal(n)
    requires n in net.nodes && net.nodes[n] == ZeroNode(n)
    ensures Number(net, x, 0, {n})
  {
  }

  lemma OneMore(net: Net, x: End, n: NodeId, e: End, k: nat, F: set<NodeId>)
    requires Matching(net.links) && Outer(net.links, x) && Partner(net.links, x) == Principal(n)
    requires n in net.nodes && net.nodes[n] == Add1Node(n, e) && e.WireEnd?
    requires Number(net, e, k, F) && n !in F
    ensures Number(net, x, k + 1, {n} + F)
  {
    hide Partner, Outer, Matching;
    assert {n} + F - {n} == F;
  }

  lemma DupZeroMoves(net: Net, held: set<End>, z: NodeId, d: NodeId, f: End, s: End, yf: End, ys: End, mid: Net,
                     F: set<NodeId>)
    requires Copying(net, held, d, f, s, yf, ys, 0, F) && F == {z}
    requires Stepped(net, held, z, d, ZeroDupEffect({z, d}, f, s), mid)
    ensures var n, n' := NodeId({z, d}, 0), NodeId({z, d}, 1);
            && Reduces(net, held, {d} + F, [Task(z, d)], mid, {n} + {n'})
            && Number(mid, yf, 0, {n}) && Number(mid, ys, 0, {n'})
  {
    hide WellFormed, Handles, Partner, Watch, SubLinks, Stepped, Reduces, Outer, Matching;
    var n, n' := NodeId({z, d}, 0), NodeId({z, d}, 1);
    var b := ZeroDupEffect({z, d}, f, s);
    assert b.nodes.Keys == {n} + {n'} && b.links[Principal(n)] == f && b.links[Principal(n')] == s;
    StepReduces(net, held, z, d, b, mid, {n} + {n'});
    assert {d} + F == {z, d};
    StepNode(net, held, z, d, b, mid, n);
    StepNode(net, held, z, d, b, mid, n');
    StepWatcher(net, held, z, d, b, mid, n, f, yf);
    StepWatcher(net, held, z, d, b, mid, n', s, ys);
    OneZero(mid, yf, n);
    OneZero(mid, ys, n');
  }

  // What add1 meeting nat-dup leaves: the new `nat-dup` on the rest, and an `add1` at each result.
  lemma DupMoves(net: Net, held: set<End>, z: NodeId, d: NodeId, e: End, f: End, s: End, yf: End, ys: End, mid: Net,
                 k: nat, F: set<NodeId>)
    requires Copying(net, held, d, f, s, yf, ys, k + 1, F + {z}) && z !in F
    requires e.WireEnd? && Number(net, e, k, F)
    requires Stepped(net, held, z, d, Add1DupEffect({z, d}, e, f, s), mid)
    ensures var n0, n3, n4 := NodeId({z, d}, 0), NodeId({z, d}, 3), NodeId({z, d}, 4);
            var x, w := Wire({z, d}, 1), Wire({z, d}, 2);
            && Copying(mid, held, n0, WireEnd(x, false), WireEnd(w, false), WireEnd(x, true), WireEnd(w, true), k, F)
            && Reduces(net, held, {z, d}, [Task(z, d)], mid, {n0, n3, n4})
            && n0 !in F && n3 !in F && n4 !in F
            && n3 in mid.nodes && mid.nodes[n3] == Add1Node(n3, WireEnd(w, true))
            && n4 in mid.nodes && mid.nodes[n4] == Add1Node(n4, WireEnd(x, true))
            && Outer(mid.links, yf) && Partner(mid.links, yf) == Principal(n4) && Watch(mid, held, {n0} + F, yf)
            && Outer(mid.links, ys) && Partner(mid.links, ys) == Principal(n3) && Watch(mid, held, {n0} + F, ys)
  {
    hide WellFormed, Handles, Partner, SubLinks, Watch, Reduces, Stepped, Outer, Matching;
    var n0, n3, n4 := NodeId({z, d}, 0), NodeId({z, d}, 3), NodeId({z, d}, 4);
    var x, w := Wire({z, d}, 1), Wire({z, d}, 2);
    var b := Add1DupEffect({z, d}, e, f, s);
    NumberNodes(net, e, k, F);
    assert {d} + (F + {z}) == {z, d} + F;
    DupNumbers(net, held, z, d, e, f, s, mid, k, F);
    assert b.nodes[n0].slots[1] == WireEnd(x, false) && b.nodes[n4].slots[0] == WireEnd(x, true);
    assert b.nodes[n0].slots[2] == WireEnd(w, false) && b.nodes[n3].slots[0] == WireEnd(w, true);
    FreshWire(net, held, z, d, b, mid, n0, 1, n4, 0);
    FreshWire(net, held, z, d, b, mid, n0, 2, n3, 0);
    StepWatch(net, held, z, d, b, mid, n4, 0, {n0} + F);
    StepWatch(net, held, z, d, b, mid, n3, 0, {n0} + F);
    DupWatchers(net, held, z, d, e, f, s, yf, ys, mid, F);
  }

  lemma DupNumbers(net: Net, held: set<End>, z: NodeId, d: NodeId, e: End, f: End, s: End, mid: Net, k: nat,
                   F: set<NodeId>)
    requires e.WireEnd? && f.WireEnd? && s.WireEnd? && Number(net, e, k, F) && z !in F && d !in F
    requires Stepped(net, held, z, d, Add1DupEffect({z, d}, e, f, s), mid)
    ensures var n0, n3, n4 := NodeId({z, d}, 0), NodeId({z, d}, 3), NodeId({z, d}, 4);
            var x, w := Wire({z, d}, 1), Wire({z, d}, 2);
            && WellFormed(mid, held) && Reduces(net, held, {z, d}, [Task(z, d)], mid, {n0, n3, n4})
            && n0 in mid.nodes && mid.nodes[n0] == DupNode(n0, WireEnd(x, false), WireEnd(w, false)) && n0 !in net.nodes
            && n3 in mid.nodes && mid.nodes[n3] == Add1Node(n3, WireEnd(w, true)) && n3 !in net.nodes
            && n4 in mid.nodes && mid.nodes[n4] == Add1Node(n4, WireEnd(x, true)) && n4 !in net.nodes
            && Number(mid, Principal(n0), k, F)
  {
    hide WellFormed, Handles, Partner, SubLinks, Watch, Reduces, Stepped, Outer, Matching;
    var n0, n3, n4 := NodeId({z, d}, 0), NodeId({z, d}, 3), NodeId({z, d}, 4);
    var b := Add1DupEffect({z, d}, e, f, s);
    assert b.nodes.Keys == {n0, n3, n4} && b.links[Principal(n0)] == e;
    StepReduces(net, held, z, d, b, mid, {n0, n3, n4});
    StepNode(net, held, z, d, b, mid, n0);
    StepNode(net, held, z, d, b, mid, n3);
    StepNode(net, held, z, d, b, mid, n4);
    StepPrincipal(net, held, z, d, b, mid, n0, e);
    NumberMoves(net, held, {z, d}, [Task(z, d)], mid, {n0, n3, n4}, e, Principal(n0), k, F);
  }

  lemma DupWatchers(net: Net, held: set<End>, z: NodeId, d: NodeId, e: End, f: End, s: End, yf: End, ys: End, mid: Net,
                    F: set<NodeId>)
    requires Stepped(net, held, z, d, Add1DupEffect({z, d}, e, f, s), mid) && F <= net.nodes.Keys && Matching(net.links)
    requires f.WireEnd? && Outer(net.links, f) && Partner(net.links, f) == yf && Watch(net, held, {z, d} + F, yf)
    requires s.WireEnd? && Outer(net.links, s) && Partner(net.links, s) == ys && Watch(net, held, {z, d} + F, ys)
    ensures var n0, n3, n4 := NodeId({z, d}, 0), NodeId({z, d}, 3), NodeId({z, d}, 4);
            && Matching(mid.links)
            && Outer(mid.links, yf) && Partner(mid.links, yf) == Principal(n4) && Watch(mid, held, {n0} + F, yf)
            && Outer(mid.links, ys) && Partner(mid.links, ys) == Principal(n3) && Watch(mid, held, {n0} + F, ys)
  {
    hide WellFormed, Handles, Partner, SubLinks, Watch, Reduces, Stepped, Outer, Matching;
    var n0, n3, n4 := NodeId({z, d}, 0), NodeId({z, d}, 3), NodeId({z, d}, 4);
    var b := Add1DupEffect({z, d}, e, f, s);
    assert b.nodes.Keys == {n0, n3, n4} && b.links[Principal(n3)] == s && b.links[Principal(n4)] == f;
    StepReduces(net, held, z, d, b, mid, {n0, n3, n4});
    WatchLess(net, held, {z, d} + F, {z, d}, yf);
    WatchLess(net, held, {z, d} + F, {z, d}, ys);
    StepWatcher(net, held, z, d, b, mid, n4, f, yf);
    StepWatcher(net, held, z, d, b, mid, n3, s, ys);
    WatchStays(net, held, {z, d}, [Task(z, d)], mid, {n0, n3, n4}, F, yf);
    WatchStays(net, held, {z, d}, [Task(z, d)], mid, {n0, n3, n4}, F, ys);
    WatchLess(mid, held, {n0, n3, n4} + F, {n0} + F, yf);
    WatchLess(mid, held, {n0, n3, n4} + F, {n0} + F, ys);
  }

  lemma DupDone(net: Net, held: set<End>, z: NodeId, d: NodeId, yf: End, ys: End, n0: NodeId, n3: NodeId, n4: NodeId,
                x: End, w: End, mid: Net, us: seq<Task>, last: Net, k: nat, F: set<NodeId>, G1: set<NodeId>,
                    G2: set<NodeId>)
    requires k > 0 && z in F && d !in F && n0 !in F && n3 !in F && n4 !in F && n0 != n3 && n0 != n4 && n3 != n4
    requires Reduces(net, held, {z, d}, [Task(z, d)], mid, {n0, n3, n4})
    requires Reduces(mid, held, {n0} + (F - {z}), us, last, G1 + G2) && G1 !! G2
    requires n3 in mid.nodes && mid.nodes[n3] == Add1Node(n3, w) && w.WireEnd?
    requires n4 in mid.nodes && mid.nodes[n4] == Add1Node(n4, x) && x.WireEnd? && Matching(mid.links)
    requires Outer(mid.links, yf) && Partner(mid.links, yf) == Principal(n4) && Watch(mid, held, {n0} + (F - {z}), yf)
    requires Outer(mid.links, ys) && Partner(mid.links, ys) == Principal(n3) && Watch(mid, held, {n0} + (F - {z}), ys)
    requires Number(last, x, k - 1, G1) && Number(last, w, k - 1, G2)
    ensures Reduces(net, held, {d} + F, [Task(z, d)] + us, last, {n4} + G1 + ({n3} + G2))
    ensures Number(last, yf, k, {n4} + G1) && Number(last, ys, k, {n3} + G2) && {n4} + G1 !! {n3} + G2
  {
    hide WellFormed, Handles, Partner, Watch, Reduces, Outer, Matching;
    ReducesThen(net, held, {z, d}, [Task(z, d)], mid, {n0, n3, n4}, {n0} + (F - {z}), us, last, G1 + G2);
    assert {z, d} + ({n0} + (F - {z}) - {n0, n3, n4}) == {d} + F;
    assert {n0, n3, n4} - ({n0} + (F - {z})) + (G1 + G2) == {n4} + G1 + ({n3} + G2);
    HeadStays(mid, held, {n0} + (F - {z}), us, last, G1 + G2, yf);
    HeadStays(mid, held, {n0} + (F - {z}), us, last, G1 + G2, ys);
    NodeStays(mid, held, {n0} + (F - {z}), us, last, G1 + G2, n3);
    NodeStays(mid, held, {n0} + (F - {z}), us, last, G1 + G2, n4);
    OneMore(last, yf, n4, x, k - 1, G1);
    OneMore(last, ys, n3, w, k - 1, G2);
  }

  // ----- `mul` -----

  function Times(m: nat, n: nat): nat {
    if m == 0 then 0 else Times(m - 1, n) + n
  }

  lemma {:induction false} TimesIsProduct(m: nat, n: nat)
    ensures Times(m, n) == m * n
  {
    if m > 0 {
      TimesIsProduct(m - 1, n);
      assert m * n == (m - 1) * n + n;
    }
  }

  // The rule adds `n` to the product of `n` and what remains of `m`.
  lemma TimesTurned(m: nat, n: nat)
    requires m > 0
    ensures Times(n, m - 1) + n == Times(m, n)
  {
    TimesIsProduct(n, m - 1);
    TimesIsProduct(m - 1, n);
    assert n * (m - 1) == (m - 1) * n;
  }

  // How many interactions `mul` takes.
  function MulSteps(m: nat, n: nat): nat
    decreases m + n
  {
    if m == 0 then n + 2 else n + 2 + MulSteps(n, m - 1) + (Times(n, m - 1) + 1)
  }

  // `m` at the principal port and `n` at the other become `m * n` at the result.  The rule hands the copy of `n`
  // to the next `mul` as its target and the rest of `m` as its other factor, so what shrinks is the sum.
  lemma {:induction false} ReduceMul(
    net: Net, held: set<End>, a: NodeId, o: End, r: End, y: End, m: nat, M: set<NodeId>, n: nat, N: set<NodeId>)
    returns (tasks: seq<Task>, last: Net, F: set<NodeId>)
    requires Adding(net, held, MUL, a, o, r, y, m, M, n, N)
    ensures Reduces(net, held, {a} + M + N, tasks, last, F) && |tasks| == MulSteps(m, n)
    ensures Number(last, y, Times(m, n), F)
    decreases m + n
  {
    hide WellFormed, Partner, Reduces, TaskEffect, Interact, Meets, Outer, Matching, Stepped, Nats, Watch,
      Add1MulEffect, ZeroMulEffect, BinaryNode, Adding, MulStage1, MulStage2, MulStage3, AuxEnds, Add1Node;
    AddingFacts(net, held, MUL, a, o, r, y, m, M, n, N);
    var z := Partner(net.links, Principal(a)).node;
    MeetsAdding(net, held, MUL, a, o, r, y, m, M, n, N);
    var mid := Interact(Nats(), net, z, a);
    if m == 0 {
      ZeroMulStep(net, held, z, a, o, r);
      DoStep(net, held, z, a, ZeroMulEffect({z, a}, o, r));
      tasks, last, F := MulZero(net, held, z, a, o, r, y, mid, M, n, N);
    } else {
      var e := net.nodes[z].slots[0];
      Add1MulStep(net, held, z, a, e, o, r);
      DoStep(net, held, z, a, Add1MulEffect({z, a}, e, o, r));
      MulBegin(net, held, z, a, e, o, r, y, mid, m - 1, M, n, N);
      var n3, u := NodeId({z, a}, 3), Wire({z, a}, 4);
      var ts2, net2, F1, F2 := MulCopies(net, held, z, a, e, y, mid, m - 1, M, n, N);
      var ts3, net3, F3 := ReduceMul(net2, held, n3, e, WireEnd(u, false), Principal(NodeId({z, a}, 5)),
                                     n, F2, m - 1, M - {z});
      MulMultiplied(net, held, z, a, e, y, ts2, net2, m - 1, M, n, N, F1, F2, ts3, net3, F3);
      tasks, last, F := MulAdds(net, held, z, a, y, [Task(z, a)] + ts2 + ts3, net3, m - 1, M, n, N, F1, F3);
      TimesTurned(m, n);
    }
  }

  lemma AddingFacts(net: Net, held: set<End>, ctor: Ctor, a: NodeId, o: End, r: End, y: End,
                    m: nat, M: set<NodeId>, n: nat, N: set<NodeId>)
    requires Adding(net, held, ctor, a, o, r, y, m, M, n, N)
    ensures a in net.nodes && net.nodes[a] == BinaryNode(ctor, a, o, r) && o.WireEnd? && r.WireEnd?
    ensures Number(net, Principal(a), m, M) && Number(net, o, n, N)
  {
    hide WellFormed, Partner, Watch;
  }

  lemma MulZero(net: Net, held: set<End>, z: NodeId, a: NodeId, o: End, r: End, y: End, mid: Net,
                M: set<NodeId>, n: nat, N: set<NodeId>)
    returns (tasks: seq<Task>, last: Net, F: set<NodeId>)
    requires Adding(net, held, MUL, a, o, r, y, 0, M, n, N) && M == {z}
    requires Stepped(net, held, z, a, ZeroMulEffect({z, a}, o, r), mid)
    ensures Reduces(net, held, {a} + M + N, tasks, last, F) && |tasks| == n + 2
    ensures Number(last, y, 0, F)
  {
    hide WellFormed, Handles, Partner, SubLinks, Watch, Reduces, Stepped, Outer, Matching;
    var u, v := NodeId({z, a}, 0), NodeId({z, a}, 1);
    var b := ZeroMulEffect({z, a}, o, r);
    assert b.nodes.Keys == {u, v} && b.links[Principal(u)] == o && b.links[Principal(v)] == r;
    NumberNodes(net, o, n, N);
    StepReduces(net, held, z, a, b, mid, {u, v});
    StepNode(net, held, z, a, b, mid, u);
    StepNode(net, held, z, a, b, mid, v);
    StepPrincipal(net, held, z, a, b, mid, u, o);
    NumberMoves(net, held, {z, a}, [Task(z, a)], mid, {u, v}, o, Principal(u), n, N);
    assert {a} + M + N == {z, a} + N;
    WatchLess(net, held, {z, a} + N, {z, a}, y);
    StepWatcher(net, held, z, a, b, mid, v, r, y);
    WatchStays(net, held, {z, a}, [Task(z, a)], mid, {u, v}, N, y);
    WatchLess(mid, held, {u, v} + N, {u} + N, y);
    var us: seq<Task>;
    us, last := ReduceErase(mid, held, u, n, N);
    tasks, F := [Task(z, a)] + us, {v};
    ReducesThen(net, held, {z, a}, [Task(z, a)], mid, {u, v}, {u} + N, us, last, {});
    assert {z, a} + ({u} + N - {u, v}) == {a} + M + N && {u, v} - ({u} + N) + {} == {v};
    HeadStays(mid, held, {u} + N, us, last, {}, y);
    NodeStays(mid, held, {u} + N, us, last, {}, v);
    OneZero(last, y, v);
  }

  // After the first interaction: the copier on `n`, the next `mul`, the `add` that takes both.
  ghost predicate MulStage1(net: Net, held: set<End>, z: NodeId, a: NodeId, e: End, y: End, mid: Net,
                            m: nat, M: set<NodeId>, n: nat, N: set<NodeId>) {
    var n0, n3, n5 := NodeId({z, a}, 0), NodeId({z, a}, 3), NodeId({z, a}, 5);
    var x, w, u, v := Wire({z, a}, 1), Wire({z, a}, 2), Wire({z, a}, 4), Wire({z, a}, 6);
    && Matching(mid.links) && Reduces(net, held, {z, a}, [Task(z, a)], mid, {n0, n3, n5})
    && Copying(mid, held, n0, WireEnd(x, false), WireEnd(w, false), WireEnd(x, true), Principal(n3), n, N)
    && n3 in mid.nodes && mid.nodes[n3] == BinaryNode(MUL, n3, e, WireEnd(u, false))
    && n5 in mid.nodes && mid.nodes[n5] == BinaryNode(ADD, n5, WireEnd(x, true), WireEnd(v, false))
    && e.WireEnd? && Number(mid, e, m, M - {z})
    && Outer(mid.links, WireEnd(u, false)) && Partner(mid.links, WireEnd(u, false)) == Principal(n5)
    && Outer(mid.links, WireEnd(v, false)) && Partner(mid.links, WireEnd(v, false)) == y
    && Principal(n5) in mid.links
    && Watch(mid, held, {n0, n3, n5} + (M - {z}) + N, y)
    && n0 !in M && n3 !in M && n5 !in M && n0 !in N && n3 !in N && n5 !in N && z in M && a !in M
    && M !! N && a !in N
  }

  // After copying: `n` twice.
  ghost predicate MulStage2(net: Net, held: set<End>, z: NodeId, a: NodeId, e: End, y: End, ts: seq<Task>, net2: Net,
                            m: nat, M: set<NodeId>, n: nat, N: set<NodeId>, F1: set<NodeId>, F2: set<NodeId>) {
    var n3, n5 := NodeId({z, a}, 3), NodeId({z, a}, 5);
    var x, u, v := Wire({z, a}, 1), Wire({z, a}, 4), Wire({z, a}, 6);
    && Matching(net2.links) && Reduces(net, held, {z, a} + N, [Task(z, a)] + ts, net2, {n3, n5} + F1 + F2)
    && Adding(net2, held, MUL, n3, e, WireEnd(u, false), Principal(n5), n, F2, m, M - {z})
    && n5 in net2.nodes && net2.nodes[n5] == BinaryNode(ADD, n5, WireEnd(x, true), WireEnd(v, false))
    && Number(net2, WireEnd(x, true), n, F1)
    && Outer(net2.links, WireEnd(v, false)) && Partner(net2.links, WireEnd(v, false)) == y
    && Watch(net2, held, {n3, n5} + F1 + F2 + (M - {z}), y)
    && n3 !in F1 && n5 !in F1 && n5 !in F2 && F1 !! F2 && F1 !! (M - {z})
    && n3 !in M && n5 !in M && n3 !in N && n5 !in N && z in M && a !in M && M !! N && a !in N
  }

  // After multiplying: the product of the copy and the rest, waiting to be added to the other copy.
  ghost predicate MulStage3(net: Net, held: set<End>, z: NodeId, a: NodeId, y: End, ts: seq<Task>, net3: Net,
                            m: nat, M: set<NodeId>, n: nat, N: set<NodeId>, F1: set<NodeId>, F3: set<NodeId>) {
    var n5 := NodeId({z, a}, 5);
    var x, v := Wire({z, a}, 1), Wire({z, a}, 6);
    && Reduces(net, held, {a} + M + N, ts, net3, {n5} + F1 + F3)
    && Adding(net3, held, ADD, n5, WireEnd(x, true), WireEnd(v, false), y, Times(n, m), F3, n, F1)
  }

  // A slot filled in the step, on a wire whose other end was linked to a principal port in the same step.
  lemma WirePrincipal(net: Net, held: set<End>, z: NodeId, a: NodeId, b: Build, mid: Net, n: NodeId, i: nat, n': NodeId)
    requires Stepped(net, held, z, a, b, mid)
    requires n in b.nodes && i in b.nodes[n].slots && b.nodes[n].slots[i].WireEnd?
    requires b.nodes[n].slots[i].Mate() in b.links && b.links[b.nodes[n].slots[i].Mate()] == Principal(n')
    ensures Matching(mid.links) && Outer(mid.links, b.nodes[n].slots[i]) && Principal(n') in mid.links
    ensures Partner(mid.links, b.nodes[n].slots[i]) == Principal(n')
  {
    hide WellFormed, Handles, Reduces, Stepped, Partner;
    StepSlot(net, held, z, a, b, mid, n, i);
    StepLinked(net, held, z, a, b, mid, b.nodes[n].slots[i].Mate());
    AcrossWire(mid.links, b.nodes[n].slots[i]);
  }

  // The same, linked to an end that faces `y`.
  lemma WireOnward(net: Net, held: set<End>, z: NodeId, a: NodeId, b: Build, mid: Net, n: NodeId, i: nat, r: End,
                   y: End)
    requires Stepped(net, held, z, a, b, mid)
    requires n in b.nodes && i in b.nodes[n].slots && b.nodes[n].slots[i].WireEnd?
    requires b.nodes[n].slots[i].Mate() in b.links && b.links[b.nodes[n].slots[i].Mate()] == r
               && r != b.nodes[n].slots[i]
    requires r.WireEnd? && Matching(net.links) && Outer(net.links, r) && Partner(net.links, r) == y
    requires Watch(net, held, {z, a}, y)
    ensures Matching(mid.links) && Outer(mid.links, b.nodes[n].slots[i])
    ensures Partner(mid.links, b.nodes[n].slots[i]) == y
  {
    hide WellFormed, Handles, Reduces, Stepped, Partner, Watch, SubLinks;
    var x := b.nodes[n].slots[i];
    StepSlot(net, held, z, a, b, mid, n, i);
    StepLinked(net, held, z, a, b, mid, x.Mate());
    StepReduces(net, held, z, a, b, mid, b.nodes.Keys);
    WatchOuter(net, held, {z, a}, [Task(z, a)], mid, b.nodes.Keys, y);
    SubLinksOut(net.links, mid.links, x);
    AcrossNewWire(net.links, x, r);
    LinkSub(net.links, mid.links, x.Mate(), r);
    LaterPartner(Link(net.links, x.Mate(), r), mid.links, x);
  }

  lemma SubLinksOut(L: Links, M: Links, p: End)
    requires SubLinks(L, M) && p !in M
    ensures p !in L
  {
  }

  // The numbers and agents after add1 met mul.
  lemma MulNumbers(net: Net, held: set<End>, z: NodeId, a: NodeId, e: End, o: End, r: End, mid: Net,
                   m: nat, M: set<NodeId>, n: nat, N: set<NodeId>)
    requires Stepped(net, held, z, a, Add1MulEffect({z, a}, e, o, r), mid)
    requires e.WireEnd? && o.WireEnd? && r.WireEnd? && Number(net, e, m, M) && Number(net, o, n, N)
    requires M !! {z, a} && N !! {z, a}
    ensures var n0, n3, n5 := NodeId({z, a}, 0), NodeId({z, a}, 3), NodeId({z, a}, 5);
            var x, w, u, v := Wire({z, a}, 1), Wire({z, a}, 2), Wire({z, a}, 4), Wire({z, a}, 6);
            && WellFormed(mid, held) && Reduces(net, held, {z, a}, [Task(z, a)], mid, {n0, n3, n5})
            && n0 in mid.nodes && mid.nodes[n0] == DupNode(n0, WireEnd(x, false), WireEnd(w, false)) && n0 !in net.nodes
            && n3 in mid.nodes && mid.nodes[n3] == BinaryNode(MUL, n3, e, WireEnd(u, false)) && n3 !in net.nodes
            && n5 in mid.nodes && mid.nodes[n5] == BinaryNode(ADD, n5, WireEnd(x, true), WireEnd(v, false))
            && n5 !in net.nodes
            && Number(mid, Principal(n0), n, N) && Number(mid, e, m, M)
  {
    hide WellFormed, Handles, Partner, SubLinks, Watch, Reduces, Stepped, Outer, Matching, Number;
    NumberStands(net, o, n, N);
    NumberStands(net, e, m, M);
    var n0, n3, n5 := NodeId({z, a}, 0), NodeId({z, a}, 3), NodeId({z, a}, 5);
    var b := Add1MulEffect({z, a}, e, o, r);
    assert b.nodes.Keys == {n0, n3, n5} && b.links[Principal(n0)] == o;
    StepReduces(net, held, z, a, b, mid, {n0, n3, n5});
    StepNode(net, held, z, a, b, mid, n0);
    StepNode(net, held, z, a, b, mid, n3);
    StepNode(net, held, z, a, b, mid, n5);
    StepPrincipal(net, held, z, a, b, mid, n0, o);
    NumberMoves(net, held, {z, a}, [Task(z, a)], mid, {n0, n3, n5}, o, Principal(n0), n, N);
    StepNumber(net, held, z, a, b, mid, n3, 1, m, M);
  }

  // Who faces whom after add1 met mul.
  lemma MulWires(net: Net, held: set<End>, z: NodeId, a: NodeId, e: End, o: End, r: End, y: End, mid: Net,
                 rest: set<NodeId>)
    requires Stepped(net, held, z, a, Add1MulEffect({z, a}, e, o, r), mid)
    requires e.WireEnd? && o.WireEnd? && r.WireEnd?
    requires Matching(net.links) && Outer(net.links, r) && Partner(net.links, r) == y
    requires Watch(net, held, {z, a} + rest, y) && rest <= net.nodes.Keys
    requires r.wire !in Add1MulEffect({z, a}, e, o, r).wires
    ensures var n0, n3, n5 := NodeId({z, a}, 0), NodeId({z, a}, 3), NodeId({z, a}, 5);
            var x, w, u, v := Wire({z, a}, 1), Wire({z, a}, 2), Wire({z, a}, 4), Wire({z, a}, 6);
            && Matching(mid.links) && Principal(n3) in mid.links && Principal(n5) in mid.links
            && Outer(mid.links, WireEnd(x, false)) && Partner(mid.links, WireEnd(x, false)) == WireEnd(x, true)
            && Outer(mid.links, WireEnd(w, false)) && Partner(mid.links, WireEnd(w, false)) == Principal(n3)
            && Outer(mid.links, WireEnd(u, false)) && Partner(mid.links, WireEnd(u, false)) == Principal(n5)
            && Outer(mid.links, WireEnd(v, false)) && Partner(mid.links, WireEnd(v, false)) == y
            && Watch(mid, held, {n0, n3, n5} + rest, y)
  {
    hide WellFormed, Handles, Partner, SubLinks, Watch, Reduces, Stepped, Outer, Matching;
    var n0, n3, n5 := NodeId({z, a}, 0), NodeId({z, a}, 3), NodeId({z, a}, 5);
    var x, w, u, v := Wire({z, a}, 1), Wire({z, a}, 2), Wire({z, a}, 4), Wire({z, a}, 6);
    var b := Add1MulEffect({z, a}, e, o, r);
    assert b.nodes.Keys == {n0, n3, n5};
    assert b.nodes[n0].slots[1] == WireEnd(x, false) && b.nodes[n0].slots[2] == WireEnd(w, false);
    assert b.nodes[n3].slots[2] == WireEnd(u, false);
    assert b.nodes[n5].slots[1] == WireEnd(x, true) && b.nodes[n5].slots[2] == WireEnd(v, false);
    StepReduces(net, held, z, a, b, mid, {n0, n3, n5});
    FreshWire(net, held, z, a, b, mid, n0, 1, n5, 1);
    MulLinks({z, a}, e, o, r);
    WirePrincipal(net, held, z, a, b, mid, n0, 2, n3);
    WirePrincipal(net, held, z, a, b, mid, n3, 2, n5);
    WatchLess(net, held, {z, a} + rest, {z, a}, y);
    WireOnward(net, held, z, a, b, mid, n5, 2, r, y);
    WatchStays(net, held, {z, a}, [Task(z, a)], mid, {n0, n3, n5}, rest, y);
  }

  lemma MulLinks(m: set<NodeId>, e: End, o: End, r: End)
    requires r.WireEnd? && o.WireEnd?
    requires r != WireEnd(Wire(m, 2), true) && r != WireEnd(Wire(m, 4), true) && r != WireEnd(Wire(m, 6), true)
    ensures var b := Add1MulEffect(m, e, o, r);
            && WireEnd(Wire(m, 2), true) in b.links && b.links[WireEnd(Wire(m, 2), true)] == Principal(NodeId(m, 3))
            && WireEnd(Wire(m, 4), true) in b.links && b.links[WireEnd(Wire(m, 4), true)] == Principal(NodeId(m, 5))
            && WireEnd(Wire(m, 6), true) in b.links && b.links[WireEnd(Wire(m, 6), true)] == r
  {
  }

  // An end in a slot is on an older wire than those made in the step.
  lemma OldWire(net: Net, held: set<End>, z: NodeId, a: NodeId, b: Build, mid: Net, n: NodeId, i: nat)
    requires WellFormed(net, held) && Stepped(net, held, z, a, b, mid)
    requires n in net.nodes && i in net.nodes[n].slots && net.nodes[n].slots[i].WireEnd?
    ensures net.nodes[n].slots[i].wire !in b.wires
  {
    hide Handles, Partner, Reduces, Conserved, Built, Fresh;
    assert InSlot(net.nodes, net.nodes[n].slots[i]);
  }

  lemma MulBegin(net: Net, held: set<End>, z: NodeId, a: NodeId, e: End, o: End, r: End, y: End, mid: Net,
                 m: nat, M: set<NodeId>, n: nat, N: set<NodeId>)
    requires Adding(net, held, MUL, a, o, r, y, m + 1, M, n, N) && z in M && M <= net.nodes.Keys && N <= net.nodes.Keys
    requires e.WireEnd? && Number(net, e, m, M - {z})
    requires Stepped(net, held, z, a, Add1MulEffect({z, a}, e, o, r), mid)
    ensures MulStage1(net, held, z, a, e, y, mid, m, M, n, N)
  {
    hide WellFormed, Handles, Partner, SubLinks, Watch, Reduces, Stepped, Outer, Matching, Number;
    var n0, n3, n5 := NodeId({z, a}, 0), NodeId({z, a}, 3), NodeId({z, a}, 5);
    var x, w, u, v := Wire({z, a}, 1), Wire({z, a}, 2), Wire({z, a}, 4), Wire({z, a}, 6);
    var b := Add1MulEffect({z, a}, e, o, r);
    var rest := M - {z} + N;
    assert {a} + M + N == {z, a} + rest;
    assert net.nodes[a].slots[2] == r;
    OldWire(net, held, z, a, b, mid, a, 2);
    MulNumbers(net, held, z, a, e, o, r, mid, m, M - {z}, n, N);
    WatchNow(net, held, {a} + M + N, y);
    MulWires(net, held, z, a, e, o, r, y, mid, rest);
    assert {n0, n3, n5} + rest == {n0, n3, n5} + (M - {z}) + N;
    assert b.nodes[n5].slots[1] == WireEnd(x, true) && n0 !in N && n3 !in N && n5 !in N;
    StepWatch(net, held, z, a, b, mid, n5, 1, {n0} + N);
    WatchPrincipal(mid, held, {n0} + N, n3);
  }

  lemma WatchPrincipal(net: Net, held: set<End>, gone: set<NodeId>, n: NodeId)
    requires n in net.nodes && n !in gone && Principal(n) in net.links
    ensures Watch(net, held, gone, Principal(n))
  {
  }

  // The end in a slot of an agent that is left alone keeps facing `y`, if `y` is watched too.
  lemma SlotFaces(net: Net, held: set<End>, gone: set<NodeId>, tasks: seq<Task>, last: Net, made: set<NodeId>,
                  n: NodeId, i: nat, y: End)
    requires Reduces(net, held, gone, tasks, last, made) && n in net.nodes && n !in gone
    requires i in net.nodes[n].slots && net.nodes[n].slots[i].WireEnd? && Watch(net, held, gone, y)
    requires Matching(net.links) && Outer(net.links, net.nodes[n].slots[i])
    requires Partner(net.links, net.nodes[n].slots[i]) == y
    ensures Matching(last.links) && Outer(last.links, net.nodes[n].slots[i])
    ensures Partner(last.links, net.nodes[n].slots[i]) == y
  {
    hide WellFormed, Handles, Partner, Watch;
    WatchSlot(net, held, gone, n, i);
    WatchOuter(net, held, gone, tasks, last, made, net.nodes[n].slots[i]);
    WatchOuter(net, held, gone, tasks, last, made, y);
    LaterPartner(net.links, last.links, net.nodes[n].slots[i]);
  }

  lemma SlotNumber(net: Net, held: set<End>, gone: set<NodeId>, tasks: seq<Task>, last: Net, made: set<NodeId>,
                   n: NodeId, i: nat, k: nat, F: set<NodeId>)
    requires Reduces(net, held, gone, tasks, last, made) && n in net.nodes && n !in gone
    requires i in net.nodes[n].slots && net.nodes[n].slots[i].WireEnd? && F !! gone
    requires Number(net, net.nodes[n].slots[i], k, F)
    ensures Number(last, net.nodes[n].slots[i], k, F)
  {
    hide WellFormed, Handles, Partner, Watch, Reduces;
    WatchSlot(net, held, gone, n, i);
    NumberStays(net, held, gone, tasks, last, made, net.nodes[n].slots[i], k, F);
  }

  // The copier has run.
  ghost predicate Copied(net: Net, held: set<End>, z: NodeId, a: NodeId, e: End, y: End, mid: Net,
                         m: nat, M: set<NodeId>, n: nat, N: set<NodeId>,
                         ts: seq<Task>, net2: Net, F1: set<NodeId>, F2: set<NodeId>) {
    && MulStage1(net, held, z, a, e, y, mid, m, M, n, N) && M - {z} <= mid.nodes.Keys
    && Reduces(mid, held, {NodeId({z, a}, 0)} + N, ts, net2, F1 + F2) && F1 !! F2
    && Number(net2, WireEnd(Wire({z, a}, 1), true), n, F1)
    && Number(net2, Principal(NodeId({z, a}, 3)), n, F2)
  }

  lemma CopiedNames(net: Net, held: set<End>, z: NodeId, a: NodeId, e: End, y: End, mid: Net,
                    m: nat, M: set<NodeId>, n: nat, N: set<NodeId>,
                    ts: seq<Task>, net2: Net, F1: set<NodeId>, F2: set<NodeId>)
    requires Copied(net, held, z, a, e, y, mid, m, M, n, N, ts, net2, F1, F2)
    ensures var n3, n5 := NodeId({z, a}, 3), NodeId({z, a}, 5);
            && n3 !in F1 && n3 !in F2 && n5 !in F1 && n5 !in F2 && F1 !! (M - {z}) && F2 !! (M - {z})
            && Reduces(net, held, {z, a} + N, [Task(z, a)] + ts, net2, {n3, n5} + F1 + F2)
            && WellFormed(net2, held) && M - {z} <= net2.nodes.Keys
  {
    hide WellFormed, Handles, Partner, SubLinks, Watch, Outer, Matching, Number, Copying;
    var n0, n3, n5 := NodeId({z, a}, 0), NodeId({z, a}, 3), NodeId({z, a}, 5);
    hide Reduces;
    CopiedApart(mid, held, n0, n3, n5, M - {z}, N, ts, net2, F1 + F2);
    ReducesThen(net, held, {z, a}, [Task(z, a)], mid, {n0, n3, n5}, {n0} + N, ts, net2, F1 + F2);
    assert {z, a} + ({n0} + N - {n0, n3, n5}) == {z, a} + N;
    assert {n0, n3, n5} - ({n0} + N) + (F1 + F2) == {n3, n5} + F1 + F2;
  }

  lemma CopiedApart(mid: Net, held: set<End>, n0: NodeId, n3: NodeId, n5: NodeId, M: set<NodeId>, N: set<NodeId>,
                    ts: seq<Task>, net2: Net, F: set<NodeId>)
    requires Reduces(mid, held, {n0} + N, ts, net2, F) && n3 in mid.nodes && n5 in mid.nodes && M <= mid.nodes.Keys
    requires n3 !in N && n5 !in N && M !! N && n0 !in M && n0 != n3 && n0 != n5
    ensures n3 !in F && n5 !in F && F !! M && M <= net2.nodes.Keys && WellFormed(net2, held)
  {
    hide WellFormed, Handles;
    assert n3 in mid.nodes.Keys && n5 in mid.nodes.Keys;
  }

  lemma CopiedAgents(net: Net, held: set<End>, z: NodeId, a: NodeId, e: End, y: End, mid: Net,
                     m: nat, M: set<NodeId>, n: nat, N: set<NodeId>,
                     ts: seq<Task>, net2: Net, F1: set<NodeId>, F2: set<NodeId>)
    requires Copied(net, held, z, a, e, y, mid, m, M, n, N, ts, net2, F1, F2)
    ensures var n3, n5 := NodeId({z, a}, 3), NodeId({z, a}, 5);
            && n3 in net2.nodes && net2.nodes[n3] == mid.nodes[n3]
            && n5 in net2.nodes && net2.nodes[n5] == mid.nodes[n5]
            && Number(net2, e, m, M - {z})
  {
    hide WellFormed, Handles, Partner, SubLinks, Watch, Outer, Matching, Number, Copying, Reduces;
    var n0, n3, n5 := NodeId({z, a}, 0), NodeId({z, a}, 3), NodeId({z, a}, 5);
    NodeStays(mid, held, {n0} + N, ts, net2, F1 + F2, n3);
    NodeStays(mid, held, {n0} + N, ts, net2, F1 + F2, n5);
    assert mid.nodes[n3].slots[1] == e;
    SlotNumber(mid, held, {n0} + N, ts, net2, F1 + F2, n3, 1, m, M - {z});
  }

  lemma CopiedFacing(net: Net, held: set<End>, z: NodeId, a: NodeId, e: End, y: End, mid: Net,
                     m: nat, M: set<NodeId>, n: nat, N: set<NodeId>,
                     ts: seq<Task>, net2: Net, F1: set<NodeId>, F2: set<NodeId>)
    requires Copied(net, held, z, a, e, y, mid, m, M, n, N, ts, net2, F1, F2)
    ensures var n3, n5 := NodeId({z, a}, 3), NodeId({z, a}, 5);
            var u, v := Wire({z, a}, 4), Wire({z, a}, 6);
            && Matching(net2.links) && Principal(n5) in net2.links
            && Outer(net2.links, WireEnd(u, false)) && Partner(net2.links, WireEnd(u, false)) == Principal(n5)
            && Outer(net2.links, WireEnd(v, false)) && Partner(net2.links, WireEnd(v, false)) == y
            && Watch(net2, held, {n3, n5} + F1 + F2 + (M - {z}), y)
  {
    hide WellFormed, Handles, Partner, SubLinks, Watch, Outer, Matching, Number, Copying, Reduces;
    var n0, n3, n5 := NodeId({z, a}, 0), NodeId({z, a}, 3), NodeId({z, a}, 5);
    var u, v := Wire({z, a}, 4), Wire({z, a}, 6);
    var more := {n3, n5} + (M - {z});
    assert {n0} + N + more == {n0, n3, n5} + (M - {z}) + N;
    assert F1 + F2 + more == {n3, n5} + F1 + F2 + (M - {z});
    WatchStays(mid, held, {n0} + N, ts, net2, F1 + F2, more, y);
    WatchLess(mid, held, {n0} + N + more, {n0} + N, y);
    WatchPrincipal(mid, held, {n0} + N, n5);
    assert mid.nodes[n3].slots[2] == WireEnd(u, false) && mid.nodes[n5].slots[2] == WireEnd(v, false);
    SlotFaces(mid, held, {n0} + N, ts, net2, F1 + F2, n3, 2, Principal(n5));
    SlotFaces(mid, held, {n0} + N, ts, net2, F1 + F2, n5, 2, y);
    StaysLinked(mid, held, {n0} + N, ts, net2, F1 + F2, Principal(n5));
  }

  lemma StaysLinked(net: Net, held: set<End>, gone: set<NodeId>, tasks: seq<Task>, last: Net, made: set<NodeId>, p: End)
    requires Reduces(net, held, gone, tasks, last, made) && p in net.links
    ensures p in last.links
  {
    hide WellFormed, Handles;
  }

  lemma MulCopies(net: Net, held: set<End>, z: NodeId, a: NodeId, e: End, y: End, mid: Net,
                  m: nat, M: set<NodeId>, n: nat, N: set<NodeId>)
    returns (ts: seq<Task>, net2: Net, F1: set<NodeId>, F2: set<NodeId>)
    requires MulStage1(net, held, z, a, e, y, mid, m, M, n, N)
    ensures MulStage2(net, held, z, a, e, y, ts, net2, m, M, n, N, F1, F2) && |ts| == n + 1
    ensures Adding(net2, held, MUL, NodeId({z, a}, 3), e, WireEnd(Wire({z, a}, 4), false), Principal(NodeId({z, a}, 5)),
                   n, F2, m, M - {z})
  {
    hide WellFormed, Handles, Partner, SubLinks, Watch, Reduces, Outer, Matching, Number, Copying;
    var n0, n3, n5 := NodeId({z, a}, 0), NodeId({z, a}, 3), NodeId({z, a}, 5);
    var x, w := Wire({z, a}, 1), Wire({z, a}, 2);
    ts, net2, F1, F2 := ReduceDup(mid, held, n0, WireEnd(x, false), WireEnd(w, false),
                                  WireEnd(x, true), Principal(n3), n, N);
    NumberNodes(mid, e, m, M - {z});
    CopiedNames(net, held, z, a, e, y, mid, m, M, n, N, ts, net2, F1, F2);
    CopiedAgents(net, held, z, a, e, y, mid, m, M, n, N, ts, net2, F1, F2);
    CopiedFacing(net, held, z, a, e, y, mid, m, M, n, N, ts, net2, F1, F2);
    WatchPrincipal(net2, held, {n3} + F2 + (M - {z}), n5);
  }

  lemma MulMultiplied(net: Net, held: set<End>, z: NodeId, a: NodeId, e: End, y: End, ts2: seq<Task>, net2: Net,
                      m: nat, M: set<NodeId>, n: nat, N: set<NodeId>, F1: set<NodeId>, F2: set<NodeId>,
                      ts3: seq<Task>, net3: Net, F3: set<NodeId>)
    requires MulStage2(net, held, z, a, e, y, ts2, net2, m, M, n, N, F1, F2)
    requires Reduces(net2, held, {NodeId({z, a}, 3)} + F2 + (M - {z}), ts3, net3, F3)
    requires Number(net3, Principal(NodeId({z, a}, 5)), Times(n, m), F3)
    ensures MulStage3(net, held, z, a, y, [Task(z, a)] + ts2 + ts3, net3, m, M, n, N, F1, F3)
  {
    hide WellFormed, Handles, Partner, SubLinks, Watch, Reduces, Outer, Matching, Number;
    var n3, n5 := NodeId({z, a}, 3), NodeId({z, a}, 5);
    var x, v := Wire({z, a}, 1), Wire({z, a}, 6);
    var gone := {n3} + F2 + (M - {z});
    ReducesThen(net, held, {z, a} + N, [Task(z, a)] + ts2, net2, {n3, n5} + F1 + F2, gone, ts3, net3, F3);
    MulNames(net2, held, gone, ts3, net3, F3, z, a, n3, n5, M, N, F1, F2, n);
    NodeStays(net2, held, gone, ts3, net3, F3, n5);
    assert net2.nodes[n5].slots[1] == WireEnd(x, true) && net2.nodes[n5].slots[2] == WireEnd(v, false);
    SlotNumber(net2, held, gone, ts3, net3, F3, n5, 1, n, F1);
    var all := {n3, n5} + F1 + F2 + (M - {z});
    WatchLess(net2, held, all, gone, y);
    SlotFaces(net2, held, gone, ts3, net3, F3, n5, 2, y);
    assert gone + ({n5} + F1) == all && F3 + ({n5} + F1) == {n5} + F3 + F1;
    WatchStays(net2, held, gone, ts3, net3, F3, {n5} + F1, y);
  }

  lemma MulNames(net2: Net, held: set<End>, gone: set<NodeId>, ts3: seq<Task>, net3: Net, F3: set<NodeId>,
                 z: NodeId, a: NodeId, n3: NodeId, n5: NodeId, M: set<NodeId>, N: set<NodeId>,
                 F1: set<NodeId>, F2: set<NodeId>, n: nat)
    requires Reduces(net2, held, gone, ts3, net3, F3) && gone == {n3} + F2 + (M - {z}) && n3 != n5
    requires n5 in net2.nodes && Number(net2, WireEnd(Wire({z, a}, 1), true), n, F1)
    requires n3 !in F1 && n5 !in F1 && n5 !in F2 && F1 !! F2 && F1 !! (M - {z}) && F2 !! (M - {z})
    requires n3 !in M && n5 !in M && z in M
    ensures {z, a} + N + (gone - ({n3, n5} + F1 + F2)) == {a} + M + N
    ensures {n3, n5} + F1 + F2 - gone + F3 == {n5} + F1 + F3
    ensures F1 !! gone && n5 !in gone && F3 !! F1 && n5 !in F3 && {n5} + F1 <= net2.nodes.Keys
    ensures WellFormed(net3, held)
  {
    hide WellFormed, Handles, Number, SubLinks;
    NumberNodes(net2, WireEnd(Wire({z, a}, 1), true), n, F1);
    assert n5 in net2.nodes.Keys;
    MulSets(z, a, n3, n5, M, N, F1, F2);
  }

  lemma MulSets(z: NodeId, a: NodeId, n3: NodeId, n5: NodeId, M: set<NodeId>, N: set<NodeId>,
                F1: set<NodeId>, F2: set<NodeId>)
    requires n3 !in F1 && n5 !in F1 && n5 !in F2 && F1 !! F2 && F1 !! (M - {z}) && F2 !! (M - {z})
    requires n3 !in M && n5 !in M && z in M && n3 != n5
    ensures {z, a} + N + ({n3} + F2 + (M - {z}) - ({n3, n5} + F1 + F2)) == {a} + M + N
    ensures {n3, n5} + F1 + F2 - ({n3} + F2 + (M - {z})) == {n5} + F1
  {
  }

  lemma MulAdds(net: Net, held: set<End>, z: NodeId, a: NodeId, y: End, ts: seq<Task>, net3: Net,
                m: nat, M: set<NodeId>, n: nat, N: set<NodeId>, F1: set<NodeId>, F3: set<NodeId>)
    returns (tasks: seq<Task>, last: Net, F: set<NodeId>)
    requires MulStage3(net, held, z, a, y, ts, net3, m, M, n, N, F1, F3)
    ensures Reduces(net, held, {a} + M + N, tasks, last, F) && |tasks| == |ts| + Times(n, m) + 1
    ensures Number(last, y, Times(n, m) + n, F)
  {
    hide WellFormed, Handles, Partner, SubLinks, Watch, Reduces, Outer, Matching, Number, Adding;
    var n5, x, v := NodeId({z, a}, 5), Wire({z, a}, 1), Wire({z, a}, 6);
    var us: seq<Task>;
    us, last, F := ReduceAdd(net3, held, n5, WireEnd(x, true), WireEnd(v, false), y, Times(n, m), F3, n, F1);
    ReducesThen(net, held, {a} + M + N, ts, net3, {n5} + F1 + F3, {n5} + F3 + F1, us, last, F);
    assert {a} + M + N + ({n5} + F3 + F1 - ({n5} + F1 + F3)) == {a} + M + N;
    assert {n5} + F1 + F3 - ({n5} + F3 + F1) + F == F;
    tasks := ts + us;
  }
}
