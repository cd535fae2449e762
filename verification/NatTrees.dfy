/**
 Whole arithmetic expressions as nets, and the number each of them becomes.
 */
module NatTrees {
  import opened Links
  import opened Script
  import opened Machine
  import opened Net
  import opened Confluence
  import opened NatRules
  import opened NatEffects
  import opened NatSystem
  import opened NatArith
  import opened NatMul

  datatype Expr = Zero | Add1(prev: Expr) | Add(left: Expr, right: Expr) | Mul(left: Expr, right: Expr)

  function Value(e: Expr): nat {
    match e
    case Zero => 0
    case Add1(p) => Value(p) + 1
    case Add(l, r) => Value(l) + Value(r)
    case Mul(l, r) => Times(Value(l), Value(r))
  }

  // How many interactions it takes to get there.
  function Cost(e: Expr): nat {
    match e
    case Zero => 0
    case Add1(p) => Cost(p)
    case Add(l, r) => Cost(l) + Cost(r) + Value(l) + 1
    case Mul(l, r) => Cost(l) + Cost(r) + MulSteps(Value(l), Value(r))
  }

  // An expression together with the agents that stand for it.
  datatype Tree =
    | ZeroTree(node: NodeId)
    | Add1Tree(node: NodeId, prev: Tree)
    | BinaryTree(ctor: Ctor, node: NodeId, left: Tree, right: Tree)

  function Agents(t: Tree): set<NodeId> {
    match t
    case ZeroTree(n) => {n}
    case Add1Tree(n, p) => {n} + Agents(p)
    case BinaryTree(_, n, l, r) => {n} + Agents(l) + Agents(r)
  }

  function Meaning(t: Tree): Expr {
    match t
    case ZeroTree(_) => Zero
    case Add1Tree(_, p) => Add1(Meaning(p))
    case BinaryTree(c, _, l, r) => if c == ADD then Add(Meaning(l), Meaning(r)) else Mul(Meaning(l), Meaning(r))
  }

  predicate IsAdd1(net: Net, n: NodeId) {
    && n in net.nodes && 0 in net.nodes[n].slots && net.nodes[n].slots[0].WireEnd?
    && net.nodes[n] == Add1Node(n, net.nodes[n].slots[0])
  }

  predicate IsBinary(net: Net, ctor: Ctor, n: NodeId) {
    && (ctor == ADD || ctor == MUL) && n in net.nodes
    && 1 in net.nodes[n].slots && net.nodes[n].slots[1].WireEnd?
    && 2 in net.nodes[n].slots && net.nodes[n].slots[2].WireEnd?
    && net.nodes[n] == BinaryNode(ctor, n, net.nodes[n].slots[1], net.nodes[n].slots[2])
  }

  // The port that the root of the tree turns to its surroundings.
  function RootPort(net: Net, t: Tree): End
    requires t.BinaryTree? ==> IsBinary(net, t.ctor, t.node)
  {
    if t.BinaryTree? then net.nodes[t.node].slots[2] else Principal(t.node)
  }

  // The agents of the tree are there and joined as the tree says.
  ghost predicate Stands(net: Net, t: Tree)
    decreases t, 0
  {
    match t
    case ZeroTree(n) => n in net.nodes && net.nodes[n] == ZeroNode(n)
    case Add1Tree(n, p) => IsAdd1(net, n) && n !in Agents(p) && Denotes(net, net.nodes[n].slots[0], p)
    case BinaryTree(c, n, l, r) =>
      && IsBinary(net, c, n) && n !in Agents(l) && n !in Agents(r) && Agents(l) !! Agents(r)
      && Denotes(net, Principal(n), l) && Denotes(net, net.nodes[n].slots[1], r)
  }

  // What `x` faces is the expression `t`.
  ghost predicate Denotes(net: Net, x: End, t: Tree)
    decreases t, 1
  {
    && Stands(net, t) && Matching(net.links) && Outer(net.links, x)
    && Partner(net.links, x) == RootPort(net, t)
  }

  // Everything of `net` is still there in `last`.
  ghost predicate Keeps(net: Net, last: Net, agents: set<NodeId>) {
    && SubLinks(net.links, last.links)
    && (forall n :: n in agents ==> n in net.nodes && n in last.nodes && last.nodes[n] == net.nodes[n])
    && (forall e :: InSlot(last.nodes, e) && e.WireEnd? ==> e !in last.links)
  }

  lemma {:induction false} StandsAgents(net: Net, t: Tree)
    requires Stands(net, t)
    ensures Agents(t) <= net.nodes.Keys
    decreases t
  {
    match t
    case ZeroTree(n) =>
    case Add1Tree(n, p) => StandsAgents(net, p);
    case BinaryTree(c, n, l, r) =>
      StandsAgents(net, l);
      StandsAgents(net, r);
  }

  lemma SlotFree(last: Net, n: NodeId, i: nat)
    requires forall e :: InSlot(last.nodes, e) && e.WireEnd? ==> e !in last.links
    requires n in last.nodes && i in last.nodes[n].slots && last.nodes[n].slots[i].WireEnd?
    ensures last.nodes[n].slots[i] !in last.links
  {
    assert InSlot(last.nodes, last.nodes[n].slots[i]);
  }

  lemma {:induction false} StandsLater(net: Net, last: Net, t: Tree)
    requires Stands(net, t) && Keeps(net, last, Agents(t))
    ensures Stands(last, t) && RootPort(last, t) == RootPort(net, t)
    decreases t, 0
  {
    hide Matching, Outer, Partner, SubLinks;
    match t
    case ZeroTree(n) =>
    case Add1Tree(n, p) =>
      assert n in Agents(t) && Keeps(net, last, Agents(p));
      SlotFree(last, n, 0);
      DenotesLater(net, last, net.nodes[n].slots[0], p);
    case BinaryTree(c, n, l, r) =>
      assert n in Agents(t) && Keeps(net, last, Agents(l)) && Keeps(net, last, Agents(r));
      SlotFree(last, n, 1);
      DenotesLater(net, last, Principal(n), l);
      DenotesLater(net, last, net.nodes[n].slots[1], r);
  }

  // An expression is left alone by whatever happens elsewhere.
  lemma {:induction false} DenotesLater(net: Net, last: Net, x: End, t: Tree)
    requires Denotes(net, x, t) && Keeps(net, last, Agents(t)) && (x.WireEnd? ==> x !in last.links)
    ensures Denotes(last, x, t)
    decreases t, 1
  {
    hide Partner;
    StandsLater(net, last, t);
    PartnerInvolution(net.links, x);
    RootOuter(net, last, t);
    LaterPartner(net.links, last.links, x);
  }

  lemma RootOuter(net: Net, last: Net, t: Tree)
    requires Stands(net, t) && Stands(last, t) && RootPort(last, t) == RootPort(net, t) && Keeps(net, last, Agents(t))
    requires Matching(net.links) && Outer(net.links, RootPort(net, t))
    ensures Outer(last.links, RootPort(net, t))
  {
    hide Partner;
    if t.BinaryTree? {
      SlotFree(last, t.node, 2);
    }
  }

  // ----- Evaluation -----

  lemma ReducesKeeps(net: Net, held: set<End>, gone: set<NodeId>, tasks: seq<Task>, last: Net, made: set<NodeId>,
                     agents: set<NodeId>)
    requires Reduces(net, held, gone, tasks, last, made) && agents <= net.nodes.Keys && agents !! gone
    ensures Keeps(net, last, agents) && made !! agents && agents <= last.nodes.Keys && WellFormed(last, held)
  {
    hide Handles, Conserved, Fresh, Built, InSlot, SubLinks, Matching;
    assert Placed(last, held);
    assert forall n :: n in agents ==> n in net.nodes.Keys - gone;
  }

  lemma NothingReduced(net: Net, held: set<End>, kept: set<NodeId>)
    requires WellFormed(net, held) && kept <= net.nodes.Keys
    ensures Reduces(net, held, kept, [], net, kept)
  {
    hide Placed, Conserved, Fresh, Built;
    assert Matching(net.links) by { WellFormedMatching(net, held); }
  }

  lemma WellFormedMatching(net: Net, held: set<End>)
    requires WellFormed(net, held)
    ensures Matching(net.links)
  {
  }

  lemma {:induction false} Evaluate(net: Net, held: set<End>, x: End, t: Tree)
    returns (tasks: seq<Task>, last: Net, F: set<NodeId>)
    requires WellFormed(net, held) && Denotes(net, x, t) && Watch(net, held, Agents(t), x)
    ensures Reduces(net, held, Agents(t), tasks, last, F) && |tasks| == Cost(Meaning(t))
    ensures Number(last, x, Value(Meaning(t)), F)
    decreases t
  {
    hide WellFormed, Partner, Reduces, Watch, Outer, Matching;
    StandsAgents(net, t);
    match t
    case ZeroTree(n) =>
      NothingReduced(net, held, {n});
      OneZero(net, x, n);
      tasks, last, F := [], net, {n};
    case Add1Tree(n, p) =>
      var s := net.nodes[n].slots[0];
      assert Denotes(net, s, p);
      WatchSlot(net, held, Agents(p), n, 0);
      var G: set<NodeId>;
      tasks, last, G := Evaluate(net, held, s, p);
      F := {n} + G;
      Add1Evaluated(net, held, x, n, s, p, tasks, last, G);
    case BinaryTree(c, n, l, r) =>
      tasks, last, F := EvaluateBinary(net, held, x, t);
  }

  lemma Add1Evaluated(net: Net, held: set<End>, x: End, n: NodeId, s: End, p: Tree,
                      tasks: seq<Task>, last: Net, G: set<NodeId>)
    requires n in net.nodes.Keys && net.nodes[n] == Add1Node(n, s) && s.WireEnd? && n !in Agents(p)
    requires Matching(net.links) && Outer(net.links, x) && Partner(net.links, x) == Principal(n)
    requires Watch(net, held, {n} + Agents(p), x)
    requires Reduces(net, held, Agents(p), tasks, last, G)
    requires Number(last, s, Value(Meaning(p)), G)
    ensures Reduces(net, held, {n} + Agents(p), tasks, last, {n} + G)
    ensures Number(last, x, Value(Meaning(p)) + 1, {n} + G)
  {
    hide WellFormed, Partner, Reduces, Watch, Outer, Matching, Number;
    WatchLess(net, held, {n} + Agents(p), Agents(p), x);
    HeadStays(net, held, Agents(p), tasks, last, G, x);
    NodeStays(net, held, Agents(p), tasks, last, G, n);
    ReducesKeep(net, held, Agents(p), tasks, last, G, {n});
    assert Agents(p) + {n} == {n} + Agents(p) && G + {n} == {n} + G;
    OneMore(last, x, n, s, Value(Meaning(p)), G);
  }

  lemma {:induction false} EvaluateBinary(net: Net, held: set<End>, x: End, t: Tree)
    returns (tasks: seq<Task>, last: Net, F: set<NodeId>)
    requires WellFormed(net, held) && t.BinaryTree? && Denotes(net, x, t) && Watch(net, held, Agents(t), x)
    ensures Reduces(net, held, Agents(t), tasks, last, F) && |tasks| == Cost(Meaning(t))
    ensures Number(last, x, Value(Meaning(t)), F)
    decreases t, 0
  {
    hide WellFormed, Partner, Reduces, Watch, Outer, Matching, Adding, Number;
    var n, o, z := t.node, net.nodes[t.node].slots[1], net.nodes[t.node].slots[2];
    StandsAgents(net, t);
    OperandWatched(net, held, t);
    var ts1, net1, F1 := Evaluate(net, held, Principal(n), t.left);
    LeftDone(net, held, x, t, o, z, ts1, net1, F1);
    var ts2, net2, F2 := Evaluate(net1, held, o, t.right);
    RightDone(net1, held, x, t, o, z, F1, ts2, net2, F2);
    var us: seq<Task>;
    if t.ctor == ADD {
      us, last, F := ReduceAdd(net2, held, n, o, z, x, Value(Meaning(t.left)), F1, Value(Meaning(t.right)), F2);
    } else {
      us, last, F := ReduceMul(net2, held, n, o, z, x, Value(Meaning(t.left)), F1, Value(Meaning(t.right)), F2);
    }
    tasks := ts1 + ts2 + us;
    BinaryEvaluated(net, held, t, ts1, net1, F1, ts2, net2, F2, us, last, F);
  }

  lemma OperandWatched(net: Net, held: set<End>, t: Tree)
    requires Stands(net, t) && t.BinaryTree?
    ensures Watch(net, held, Agents(t.left), Principal(t.node))
  {
    hide Partner, Matching;
  }

  // The left operand has become a number.
  ghost predicate LeftNumber(net: Net, held: set<End>, x: End, t: Tree, o: End, z: End, F: set<NodeId>)
    requires t.BinaryTree?
  {
    var n := t.node;
    && WellFormed(net, held) && (t.ctor == ADD || t.ctor == MUL)
    && n in net.nodes && net.nodes[n] == BinaryNode(t.ctor, n, o, z) && o.WireEnd? && z.WireEnd?
    && n !in F && n !in Agents(t.right) && F !! Agents(t.right) && F <= net.nodes.Keys
    && Denotes(net, o, t.right) && Watch(net, held, Agents(t.right), o)
    && Outer(net.links, z) && Partner(net.links, z) == x
    && Watch(net, held, {n} + F + Agents(t.right), x)
    && Number(net, Principal(n), Value(Meaning(t.left)), F)
  }

  lemma LeftDone(net: Net, held: set<End>, x: End, t: Tree, o: End, z: End, ts: seq<Task>, net1: Net, F: set<NodeId>)
    requires t.BinaryTree? && IsBinary(net, t.ctor, t.node)
    requires o == net.nodes[t.node].slots[1] && z == net.nodes[t.node].slots[2]
    requires WellFormed(net, held) && t.BinaryTree? && Denotes(net, x, t) && Watch(net, held, Agents(t), x)
    requires Agents(t) <= net.nodes.Keys && Reduces(net, held, Agents(t.left), ts, net1, F)
    requires Number(net1, Principal(t.node), Value(Meaning(t.left)), F)
    ensures LeftNumber(net1, held, x, t, o, z, F)
  {
    hide WellFormed, Partner, Reduces, Watch, Outer, Matching, Number;
    var n := t.node;
    var gone, more := Agents(t.left), {n} + Agents(t.right);
    assert Agents(t) == gone + more && F + more == {n} + F + Agents(t.right);
    ReducesKeeps(net, held, gone, ts, net1, F, more);
    NodeStays(net, held, gone, ts, net1, F, n);
    SlotFree(net1, n, 1);
    DenotesLater(net, net1, o, t.right);
    WatchSlot(net1, held, Agents(t.right), n, 1);
    WatchLess(net, held, Agents(t), gone, x);
    PartnerInvolution(net.links, x);
    SlotFaces(net, held, gone, ts, net1, F, n, 2, x);
    WatchStays(net, held, gone, ts, net1, F, more, x);
    NumberNodes(net1, Principal(n), Value(Meaning(t.left)), F);
  }

  lemma RightDone(net1: Net, held: set<End>, x: End, t: Tree, o: End, z: End, F1: set<NodeId>,
                  ts: seq<Task>, net2: Net, F2: set<NodeId>)
    requires t.BinaryTree? && LeftNumber(net1, held, x, t, o, z, F1)
    requires Reduces(net1, held, Agents(t.right), ts, net2, F2) && Number(net2, o, Value(Meaning(t.right)), F2)
    ensures Adding(net2, held, t.ctor, t.node, o, z, x, Value(Meaning(t.left)), F1, Value(Meaning(t.right)), F2)
    ensures t.node !in F1 && t.node !in F2
  {
    hide WellFormed, Partner, Reduces, Watch, Matching, Number, Denotes;
    var n, gone, more := t.node, Agents(t.right), {t.node} + F1;
    assert gone + more == {n} + F1 + Agents(t.right) && F2 + more == {n} + F1 + F2;
    ReducesKeeps(net1, held, gone, ts, net2, F2, more);
    NodeStays(net1, held, gone, ts, net2, F2, n);
    NumberLinked(net1, n, Value(Meaning(t.left)), F1);
    WatchPrincipal(net1, held, gone, n);
    NumberStays(net1, held, gone, ts, net2, F2, Principal(n), Value(Meaning(t.left)), F1);
    WatchLess(net1, held, gone + more, gone, x);
    SlotFaces(net1, held, gone, ts, net2, F2, n, 2, x);
    WatchStays(net1, held, gone, ts, net2, F2, more, x);
  }

  lemma NumberLinked(net: Net, n: NodeId, k: nat, F: set<NodeId>)
    requires Number(net, Principal(n), k, F)
    ensures Principal(n) in net.links
  {
  }

  lemma BinaryEvaluated(net: Net, held: set<End>, t: Tree, ts1: seq<Task>, net1: Net, F1: set<NodeId>,
                        ts2: seq<Task>, net2: Net, F2: set<NodeId>, us: seq<Task>, last: Net, F: set<NodeId>)
    requires t.BinaryTree? && t.node !in F1 && t.node !in F2 && F1 !! Agents(t.right)
    requires Reduces(net, held, Agents(t.left), ts1, net1, F1) && Reduces(net1, held, Agents(t.right), ts2, net2, F2)
    requires Reduces(net2, held, {t.node} + F1 + F2, us, last, F)
    ensures Reduces(net, held, Agents(t), ts1 + ts2 + us, last, F)
  {
    hide Reduces;
    ReducesThen(net, held, Agents(t.left), ts1, net1, F1, Agents(t.right), ts2, net2, F2);
    var gone, made := Agents(t.left) + (Agents(t.right) - F1), F1 - Agents(t.right) + F2;
    ReducesThen(net, held, gone, ts1 + ts2, net2, made, {t.node} + F1 + F2, us, last, F);
    assert gone + ({t.node} + F1 + F2 - made) == Agents(t);
    assert made - ({t.node} + F1 + F2) + F == F;
  }
}
