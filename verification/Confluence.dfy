/**
 Every interaction keeps the net well formed, and the order of interactions does not matter.
 */
module Confluence {
  import opened Links
  import opened Script
  import opened Machine
  import opened Net

  // ----- The ends two agents leave behind -----

  lemma {:induction false} AuxFromElements(node: Node, i: nat, e: End)
    ensures e in AuxFrom(node, i) <==>
            exists j: nat :: i <= j < node.ctor.Arity() && j in node.slots && node.slots[j] == e && e.WireEnd?
    decreases node.ctor.Arity() - i
  {
    if i < node.ctor.Arity() {
      AuxFromElements(node, i + 1, e);
    }
  }

  ghost predicate SlotsDiffer(node: Node) {
    forall i: nat, j: nat ::
      (i in node.slots && j in node.slots && node.slots[i] == node.slots[j] && node.slots[i].WireEnd?) ==> i == j
  }

  lemma {:induction false} AuxFromNoRepeats(node: Node, i: nat)
    requires SlotsDiffer(node)
    ensures NoRepeats(AuxFrom(node, i))
    decreases node.ctor.Arity() - i
  {
    if i < node.ctor.Arity() {
      AuxFromNoRepeats(node, i + 1);
      if i in node.slots && node.slots[i].WireEnd? {
        AuxFromElements(node, i + 1, node.slots[i]);
        assert node.slots[i] !in AuxFrom(node, i + 1);
      }
    }
  }

  lemma {:induction false} AuxFromLength(node: Node, n: NodeId, i: nat)
    requires node.Complete() && node.WellBuilt(n)
    ensures |AuxFrom(node, i)| == AuxCountFrom(node.ctor, i)
    decreases node.ctor.Arity() - i
  {
    if i < node.ctor.Arity() {
      AuxFromLength(node, n, i + 1);
    }
  }

  lemma InAux(net: Net, n: NodeId, e: End)
    requires n in net.nodes && Built(net)
    ensures e in AuxEnds(net.nodes[n]) <==>
            e.WireEnd? && exists i :: i in net.nodes[n].slots && net.nodes[n].slots[i] == e
  {
    AuxFromElements(net.nodes[n], 0, e);
  }

  lemma TaskIn(net: Net, held: set<End>, l: NodeId, r: NodeId, e: End)
    requires WellFormed(net, held) && l in net.nodes && r in net.nodes && e in TaskIns(net, l, r)
    ensures e.WireEnd? && InSlot(net.nodes, e) && e.wire in net.wires && e.wire.makers != {l, r}
    ensures l != r ==> !(e in AuxEnds(net.nodes[l]) && e in AuxEnds(net.nodes[r]))
  {
    InAux(net, l, e);
    InAux(net, r, e);
    assert l !in net.dead;
  }

  lemma TaskInputs(net: Net, held: set<End>, l: NodeId, r: NodeId)
    requires WellFormed(net, held) && l in net.nodes && r in net.nodes && l != r
    ensures Inputs({l, r}, TaskIns(net, l, r))
    ensures |TaskIns(net, l, r)| == AuxCount(net.nodes[l].ctor) + AuxCount(net.nodes[r].ctor)
  {
    AuxFromNoRepeats(net.nodes[l], 0);
    AuxFromNoRepeats(net.nodes[r], 0);
    AuxFromLength(net.nodes[l], l, 0);
    AuxFromLength(net.nodes[r], r, 0);
    forall e: End | e in TaskIns(net, l, r)
      ensures e.WireEnd? && e.wire.makers != {l, r}
      ensures !(e in AuxEnds(net.nodes[l]) && e in AuxEnds(net.nodes[r]))
    {
      TaskIn(net, held, l, r, e);
    }
    NoRepeatsConcat(AuxEnds(net.nodes[l]), AuxEnds(net.nodes[r]));
  }

  lemma NoRepeatsConcat(a: seq<End>, b: seq<End>)
    requires NoRepeats(a) && NoRepeats(b)
    requires forall e :: e in a + b ==> !(e in a && e in b)
    ensures NoRepeats(a + b)
  {
    forall i, j | 0 <= i < j < |a + b|
      ensures (a + b)[i] != (a + b)[j]
    {
      assert (a + b)[i] in a + b;
    }
  }

  // ----- What a good body adds -----

  ghost predicate GoodEffect(b: Build, makers: set<NodeId>, ins: set<End>) {
    && Held(b, ins) && b.makers == makers && b.free == {} && b.open == {}
  }

  lemma {:induction false} PerformAllMakers(b: Build, script: seq<Action>)
    requires AllAllowed(b, script)
    ensures PerformAll(b, script).makers == b.makers
    decreases |script|
  {
    if script != [] {
      PerformAllMakers(Perform(b, script[0]), script[1..]);
    }
  }

  lemma FindRuleIn(rules: seq<Rule>, a: Ctor, b: Ctor)
    requires FindRule(rules, a, b).Some?
    ensures FindRule(rules, a, b).value in rules && Matches(FindRule(rules, a, b).value, a, b)
  {
  }

  lemma TaskEffectGood(sys: System, net: Net, held: set<End>, l: NodeId, r: NodeId)
    requires GoodSystem(sys) && WellFormed(net, held) && Ready(sys, net, l, r) && l != r
    ensures GoodEffect(TaskEffect(sys, net, l, r), {l, r}, EndSet(TaskIns(net, l, r)))
  {
    var rule := FindRule(sys.rules, net.nodes[l].ctor, net.nodes[r].ctor).value;
    FindRuleIn(sys.rules, net.nodes[l].ctor, net.nodes[r].ctor);
    TaskInputs(net, held, l, r);
    var ins := TaskIns(net, l, r);
    assert BodyOk(sys, rule, {l, r}, ins);
    var script := RunBody(sys, rule, {l, r}, ins).world.script;
    HeldStart({l, r}, EndSet(ins));
    PerformAllHeld(Start({l, r}, EndSet(ins)), EndSet(ins), script);
    PerformAllMakers(Start({l, r}, EndSet(ins)), script);
  }

  lemma ReadyDistinct(sys: System, net: Net, l: NodeId, r: NodeId)
    requires Matching(net.links) && Active(net, l, r)
    ensures l != r && Principal(r) in net.links && Active(net, r, l)
  {
    PartnerInvolution(net.links, Principal(l));
  }

  // ----- One interaction keeps the net well formed -----

  // `b` was built out of the ends of `l` and `r`.
  ghost predicate Replaces(net: Net, held: set<End>, l: NodeId, r: NodeId, b: Build) {
    && WellFormed(net, held) && l in net.nodes && r in net.nodes && l != r
    && Principal(l) in net.links && Principal(r) in net.links
    && GoodEffect(b, {l, r}, EndSet(TaskIns(net, l, r)))
  }

  lemma NewNames(net: Net, held: set<End>, l: NodeId, r: NodeId, b: Build)
    requires Replaces(net, held, l, r, b)
    ensures b.nodes.Keys !! net.nodes.Keys && b.nodes.Keys !! net.dead && b.wires !! net.wires
    ensures l !in b.nodes && r !in b.nodes
  {
    assert l !in net.dead;
  }

  lemma InSlotUnion(a: map<NodeId, Node>, b: map<NodeId, Node>, e: End)
    requires a.Keys !! b.Keys
    ensures InSlot(a + b, e) <==> InSlot(a, e) || InSlot(b, e)
  {
    var c := a + b;
    if InSlot(a, e) {
      var n, i :| n in a && i in a[n].slots && a[n].slots[i] == e;
      assert n in a.Keys && n in c && c[n].slots[i] == e;
    }
    if InSlot(b, e) {
      var n, i :| n in b && i in b[n].slots && b[n].slots[i] == e;
      assert n in c && c[n].slots[i] == e;
    }
    if InSlot(c, e) {
      var n, i :| n in c && i in c[n].slots && c[n].slots[i] == e;
      assert if n in b then b[n].slots[i] == e else n in a && a[n].slots[i] == e;
    }
  }

  lemma DistinctUnion(a: map<NodeId, Node>, b: map<NodeId, Node>)
    requires a.Keys !! b.Keys && DistinctSlots(a) && DistinctSlots(b)
    requires forall e :: InSlot(a, e) && InSlot(b, e) ==> e.Principal?
    ensures DistinctSlots(a + b)
  {
    var c := a + b;
    forall n, i, m, j | n in c && i in c[n].slots && m in c && j in c[m].slots
                        && c[n].slots[i] == c[m].slots[j] && c[n].slots[i].WireEnd?
      ensures n == m && i == j
    {
      var e := c[n].slots[i];
      if n in b && m in b {
        assert b[n].slots[i] == b[m].slots[j];
      } else if n in b {
        assert m in a && a[m].slots[j] == e && InSlot(a, e) && InSlot(b, e);
      } else if m in b {
        assert n in a && a[n].slots[i] == e && InSlot(a, e) && InSlot(b, e);
      } else {
        assert a[n].slots[i] == a[m].slots[j];
      }
    }
  }

  // A wire end in a slot either stays where it is or is handed to the body.
  lemma SlotsSplit(net: Net, l: NodeId, r: NodeId, e: End)
    requires Built(net) && l in net.nodes && r in net.nodes && e.WireEnd?
    ensures InSlot(net.nodes, e) <==> InSlot(net.nodes - {l, r}, e) || e in TaskIns(net, l, r)
  {
    InAux(net, l, e);
    InAux(net, r, e);
    var rest := net.nodes - {l, r};
    if InSlot(net.nodes, e) {
      var n, i :| n in net.nodes && i in net.nodes[n].slots && net.nodes[n].slots[i] == e;
      if n != l && n != r {
        assert n in rest && rest[n].slots[i] == e;
      }
    }
    if InSlot(rest, e) {
      var n, i :| n in rest && i in rest[n].slots && rest[n].slots[i] == e;
      assert net.nodes[n].slots[i] == e;
    }
  }

  lemma SlotsSplitApart(net: Net, l: NodeId, r: NodeId, e: End)
    requires Built(net) && DistinctSlots(net.nodes) && l in net.nodes && r in net.nodes && e.WireEnd?
    requires InSlot(net.nodes - {l, r}, e)
    ensures e !in TaskIns(net, l, r)
  {
    InAux(net, l, e);
    InAux(net, r, e);
    var rest := net.nodes - {l, r};
    var n, i :| n in rest && i in rest[n].slots && rest[n].slots[i] == e;
    assert net.nodes[n].slots[i] == e && n != l && n != r;
  }

  // Where the ends in the new part come from.
  lemma NewEnds(net: Net, held: set<End>, l: NodeId, r: NodeId, b: Build, e: End)
    requires Replaces(net, held, l, r, b)
    requires e in b.links || (e.WireEnd? && InSlot(b.nodes, e))
    ensures || (e.WireEnd? && e in TaskIns(net, l, r) && InSlot(net.nodes, e) && e !in net.links && e !in held
                && e.wire in net.wires)
            || (e.WireEnd? && e.wire in b.wires && e.wire !in net.wires)
            || (e.Principal? && e.node in b.nodes && e.node !in net.nodes && e.node !in net.dead)
  {
    assert Known(b, EndSet(TaskIns(net, l, r)), e);
    if e in TaskIns(net, l, r) {
      assert e.WireEnd?;
      SlotsSplit(net, l, r, e);
    } else {
      NewNames(net, held, l, r, b);
    }
  }

  lemma ReplaceBuilt(net: Net, held: set<End>, l: NodeId, r: NodeId, b: Build)
    requires Replaces(net, held, l, r, b)
    ensures Built(Replace(net, {l, r}, b))
  {
  }

  lemma ReplaceFresh(net: Net, held: set<End>, l: NodeId, r: NodeId, b: Build)
    requires Replaces(net, held, l, r, b)
    ensures Fresh(Replace(net, {l, r}, b))
  {
    NewNames(net, held, l, r, b);
    var after := Replace(net, {l, r}, b);
    forall e: End | e in after.links && e.Principal?
      ensures e.node in after.nodes || e.node in after.dead
    {
      if e in b.links {
        NewEnds(net, held, l, r, b, e);
      }
    }
    FreshNames(net, l, r, b);
  }

  lemma FreshNames(net: Net, l: NodeId, r: NodeId, b: Build)
    requires Fresh(net) && l in net.nodes && r in net.nodes && Named(b, EndSet(TaskIns(net, l, r)))
    requires b.makers == {l, r}
    requires b.nodes.Keys !! net.dead && l !in b.nodes && r !in b.nodes
    ensures var after := Replace(net, {l, r}, b);
            && after.nodes.Keys !! after.dead
            && (forall w :: w in after.wires ==> w.makers <= after.dead)
            && (forall n :: n in after.nodes ==> n.makers <= after.dead)
            && (forall n :: n in after.dead ==> n.makers <= after.dead)
  {
  }

  lemma NewLink(net: Net, held: set<End>, l: NodeId, r: NodeId, b: Build, e: End)
    requires Replaces(net, held, l, r, b) && e in b.links
    ensures e !in net.links && e !in held
    ensures e.WireEnd? ==> e.wire in net.wires + b.wires
  {
    NewEnds(net, held, l, r, b, e);
  }

  lemma ReplaceLinks(net: Net, held: set<End>, l: NodeId, r: NodeId, b: Build)
    requires Replaces(net, held, l, r, b)
    ensures net.links.Keys !! b.links.Keys && Matching(net.links) && Matching(b.links)
    ensures forall e :: e in b.links ==> e !in held && (e.WireEnd? ==> e.wire in net.wires + b.wires)
  {
    forall e | e in b.links
      ensures e !in net.links && e !in held && (e.WireEnd? ==> e.wire in net.wires + b.wires)
    {
      NewLink(net, held, l, r, b, e);
    }
  }

  lemma ReplaceSlots(net: Net, held: set<End>, l: NodeId, r: NodeId, b: Build)
    requires Replaces(net, held, l, r, b)
    ensures DistinctSlots(net.nodes - {l, r} + b.nodes)
  {
    var rest := net.nodes - {l, r};
    NewNames(net, held, l, r, b);
    forall e | InSlot(rest, e) && InSlot(b.nodes, e)
      ensures e.Principal?
    {
      if e.WireEnd? {
        NewEnds(net, held, l, r, b, e);
        SlotsSplit(net, l, r, e);
        SlotsSplitApart(net, l, r, e);
      }
    }
    DistinctRest(net.nodes, {l, r});
    DistinctUnion(rest, b.nodes);
  }

  lemma DistinctRest(nodes: map<NodeId, Node>, gone: set<NodeId>)
    requires DistinctSlots(nodes)
    ensures DistinctSlots(nodes - gone)
  {
  }

  lemma ReplacePlaced(net: Net, held: set<End>, l: NodeId, r: NodeId, b: Build)
    requires Replaces(net, held, l, r, b)
    ensures Placed(Replace(net, {l, r}, b), held)
  {
    ReplaceLinks(net, held, l, r, b);
    UnionMatching(net.links, b.links);
    ReplaceSlots(net, held, l, r, b);
    var after := Replace(net, {l, r}, b);
    forall e | InSlot(after.nodes, e) && e.WireEnd?
      ensures e !in after.links && e !in held && e.wire in after.wires
    {
      ReplaceSlotPlaced(net, held, l, r, b, e);
    }
  }

  lemma ReplaceSlotPlaced(net: Net, held: set<End>, l: NodeId, r: NodeId, b: Build, e: End)
    requires Replaces(net, held, l, r, b)
    requires InSlot(net.nodes - {l, r} + b.nodes, e) && e.WireEnd?
    ensures e !in net.links && e !in b.links && e !in held && e.wire in net.wires + b.wires
  {
    NewNames(net, held, l, r, b);
    InSlotUnion(net.nodes - {l, r}, b.nodes, e);
    if InSlot(b.nodes, e) {
      NewEnds(net, held, l, r, b, e);
    } else {
      SlotsSplit(net, l, r, e);
      SlotsSplitApart(net, l, r, e);
      if e in b.links {
        NewEnds(net, held, l, r, b, e);
      }
    }
  }

  lemma ReplaceConserved(net: Net, held: set<End>, l: NodeId, r: NodeId, b: Build)
    requires Replaces(net, held, l, r, b)
    ensures Conserved(Replace(net, {l, r}, b), held)
  {
    hide Placed, Fresh, Built, GoodEffect, TaskIns, InSlot;
    var after := Replace(net, {l, r}, b);
    forall w, s | w in after.wires
      ensures WireEnd(w, s) in after.links || InSlot(after.nodes, WireEnd(w, s)) || WireEnd(w, s) in held
    {
      ReplaceWireConserved(net, held, l, r, b, w, s);
    }
    forall n | n in after.nodes
      ensures Principal(n) in after.links || Principal(n) in held
    {
      ReplacePortConserved(net, held, l, r, b, n);
    }
  }

  lemma ReplacePortConserved(net: Net, held: set<End>, l: NodeId, r: NodeId, b: Build, n: NodeId)
    requires Replaces(net, held, l, r, b) && n in net.nodes - {l, r} + b.nodes
    ensures Principal(n) in net.links + b.links || Principal(n) in held
  {
    hide Placed, Fresh, Built, TaskIns;
    if n in b.nodes {
      assert Known(b, EndSet(TaskIns(net, l, r)), Principal(n));
    }
  }

  lemma ReplaceWireConserved(net: Net, held: set<End>, l: NodeId, r: NodeId, b: Build, w: Wire, s: bool)
    requires Replaces(net, held, l, r, b) && w in net.wires + b.wires
    ensures || WireEnd(w, s) in net.links + b.links
            || InSlot(net.nodes - {l, r} + b.nodes, WireEnd(w, s))
            || WireEnd(w, s) in held
  {
    var e := WireEnd(w, s);
    NewNames(net, held, l, r, b);
    InSlotUnion(net.nodes - {l, r}, b.nodes, e);
    SlotsSplit(net, l, r, e);
    if w in b.wires || e in TaskIns(net, l, r) {
      assert Known(b, EndSet(TaskIns(net, l, r)), e);
    }
  }

  // Every interaction keeps the linear discipline.
  lemma InteractWellFormed(sys: System, net: Net, held: set<End>, l: NodeId, r: NodeId)
    requires GoodSystem(sys) && WellFormed(net, held) && Ready(sys, net, l, r)
    ensures WellFormed(Interact(sys, net, l, r), held)
  {
    ReadyDistinct(sys, net, l, r);
    TaskEffectGood(sys, net, held, l, r);
    var b := TaskEffect(sys, net, l, r);
    ReplacePlaced(net, held, l, r, b);
    ReplaceConserved(net, held, l, r, b);
    ReplaceFresh(net, held, l, r, b);
    ReplaceBuilt(net, held, l, r, b);
  }

  // A program that uses no end twice makes a well-formed net; the ends it has in hand are the free ones.
  lemma BuildWellFormed(b: Build)
    requires Held(b, {}) && b.makers == {} && b.open == {}
    ensures WellFormed(AsNet(b), b.free)
  {
    hide InSlot, DistinctSlots;
    var net := AsNet(b);
    forall e | InSlot(net.nodes, e) && e.WireEnd?
      ensures e !in net.links && e !in b.free && e.wire in net.wires
    {
      assert Known(b, {}, e);
    }
    forall w, s | w in net.wires
      ensures WireEnd(w, s) in net.links || InSlot(net.nodes, WireEnd(w, s)) || WireEnd(w, s) in b.free
    {
      assert Known(b, {}, WireEnd(w, s));
    }
    forall n | n in net.nodes
      ensures Principal(n) in net.links || Principal(n) in b.free
    {
      assert Known(b, {}, Principal(n));
    }
  }

  // ----- Two different tasks do not get in each other's way -----

  lemma TasksDisjoint(sys: System, net: Net, l1: NodeId, r1: NodeId, l2: NodeId, r2: NodeId)
    requires Matching(net.links) && Active(net, l1, r1) && Active(net, l2, r2) && {l1, r1} != {l2, r2}
    ensures {l1, r1} !! {l2, r2}
  {
    ReadyDistinct(sys, net, l1, r1);
    ReadyDistinct(sys, net, l2, r2);
  }

  lemma StaysReady(sys: System, net: Net, held: set<End>, l1: NodeId, r1: NodeId, l2: NodeId, r2: NodeId)
    requires GoodSystem(sys) && WellFormed(net, held)
    requires Ready(sys, net, l1, r1) && Ready(sys, net, l2, r2) && {l1, r1} != {l2, r2}
    ensures Matching(Interact(sys, net, l1, r1).links)
    ensures Ready(sys, Interact(sys, net, l1, r1), l2, r2)
    ensures TaskEffect(sys, Interact(sys, net, l1, r1), l2, r2) == TaskEffect(sys, net, l2, r2)
    ensures Weight(sys, Interact(sys, net, l1, r1), l2, r2) == Weight(sys, net, l2, r2)
  {
    hide Weight, Effect, GoodSystem, Conserved, Fresh, Built;
    TasksDisjoint(sys, net, l1, r1, l2, r2);
    ReadyDistinct(sys, net, l1, r1);
    ReadyDistinct(sys, net, l2, r2);
    TaskEffectGood(sys, net, held, l1, r1);
    var b := TaskEffect(sys, net, l1, r1);
    NewNames(net, held, l1, r1, b);
    ReplaceLinks(net, held, l1, r1, b);
    PartnerUnion(net.links, b.links, Principal(l2));
    var after := Interact(sys, net, l1, r1);
    SurvivesReplace(net, {l1, r1}, b, l2);
    SurvivesReplace(net, {l1, r1}, b, r2);
    WeightStays(sys, net, after, l2, r2);
  }

  lemma WeightStays(sys: System, net: Net, after: Net, l: NodeId, r: NodeId)
    requires l in net.nodes && r in net.nodes && l in after.nodes && r in after.nodes
    requires after.nodes[l] == net.nodes[l] && after.nodes[r] == net.nodes[r]
    ensures Weight(sys, after, l, r) == Weight(sys, net, l, r)
  {
  }

  lemma SurvivesReplace(net: Net, gone: set<NodeId>, b: Build, n: NodeId)
    requires n in net.nodes && n !in gone && b.nodes.Keys !! net.nodes.Keys
    ensures n in Replace(net, gone, b).nodes && Replace(net, gone, b).nodes[n] == net.nodes[n]
  {
    assert n in net.nodes.Keys;
  }

  // Strong confluence: both orders are possible and lead to the very same net.
  lemma Diamond(sys: System, net: Net, held: set<End>, l1: NodeId, r1: NodeId, l2: NodeId, r2: NodeId)
    requires GoodSystem(sys) && WellFormed(net, held)
    requires Ready(sys, net, l1, r1) && Ready(sys, net, l2, r2) && {l1, r1} != {l2, r2}
    ensures var net1, net2 := Interact(sys, net, l1, r1), Interact(sys, net, l2, r2);
            && WellFormed(net1, held) && WellFormed(net2, held)
            && Ready(sys, net1, l2, r2) && Ready(sys, net2, l1, r1)
            && Interact(sys, net1, l2, r2) == Interact(sys, net2, l1, r1)
  {
    InteractWellFormed(sys, net, held, l1, r1);
    InteractWellFormed(sys, net, held, l2, r2);
    StaysReady(sys, net, held, l1, r1, l2, r2);
    StaysReady(sys, net, held, l2, r2, l1, r1);
    TasksDisjoint(sys, net, l1, r1, l2, r2);
    EffectsApart(sys, net, held, l1, r1, l2, r2);
    EffectsApart(sys, net, held, l2, r2, l1, r1);
    ReplaceCommutes(net, {l1, r1}, TaskEffect(sys, net, l1, r1), {l2, r2}, TaskEffect(sys, net, l2, r2));
  }

  lemma EffectsApart(sys: System, net: Net, held: set<End>, l1: NodeId, r1: NodeId, l2: NodeId, r2: NodeId)
    requires GoodSystem(sys) && WellFormed(net, held)
    requires Ready(sys, net, l1, r1) && Ready(sys, net, l2, r2) && {l1, r1} != {l2, r2}
    ensures var b1, b2 := TaskEffect(sys, net, l1, r1), TaskEffect(sys, net, l2, r2);
            && b1.nodes.Keys !! {l2, r2} && b1.nodes.Keys !! b2.nodes.Keys && b1.links.Keys !! b2.links.Keys
  {
    var b1, b2 := TaskEffect(sys, net, l1, r1), TaskEffect(sys, net, l2, r2);
    ReadyDistinct(sys, net, l1, r1);
    ReadyDistinct(sys, net, l2, r2);
    TaskEffectGood(sys, net, held, l1, r1);
    TaskEffectGood(sys, net, held, l2, r2);
    NewNames(net, held, l1, r1, b1);
    forall e | e in b1.links
      ensures e !in b2.links
    {
      if e in b2.links {
        TasksDisjoint(sys, net, l1, r1, l2, r2);
        LinksApart(net, held, l1, r1, b1, l2, r2, b2, e);
      }
    }
  }

  lemma LinksApart(net: Net, held: set<End>, l1: NodeId, r1: NodeId, b1: Build,
                   l2: NodeId, r2: NodeId, b2: Build, e: End)
    requires Replaces(net, held, l1, r1, b1) && Replaces(net, held, l2, r2, b2) && {l1, r1} !! {l2, r2}
    ensures !(e in b1.links && e in b2.links)
  {
    if e in b1.links && e in b2.links {
      NewEnds(net, held, l1, r1, b1, e);
      NewEnds(net, held, l2, r2, b2, e);
      if e in TaskIns(net, l1, r1) && e in TaskIns(net, l2, r2) {
        InAux(net, l1, e);
        InAux(net, r1, e);
        InAux(net, l2, e);
        InAux(net, r2, e);
      }
    }
  }

  lemma ReplaceCommutes(net: Net, gone1: set<NodeId>, b1: Build, gone2: set<NodeId>, b2: Build)
    requires b1.nodes.Keys !! gone2 && b2.nodes.Keys !! gone1 && b1.nodes.Keys !! b2.nodes.Keys
    requires b1.links.Keys !! b2.links.Keys
    ensures Replace(Replace(net, gone1, b1), gone2, b2) == Replace(Replace(net, gone2, b2), gone1, b1)
  {
    MapsCommute(net.nodes, gone1, b1.nodes, gone2, b2.nodes);
    MapsCommute(net.links, {}, b1.links, {}, b2.links);
    assert net.links - {} == net.links;
    assert net.links + b1.links - {} == net.links + b1.links;
    assert net.links + b2.links - {} == net.links + b2.links;
  }

  lemma MapsCommute<K, V>(m: map<K, V>, g1: set<K>, a1: map<K, V>, g2: set<K>, a2: map<K, V>)
    requires a1.Keys !! g2 && a2.Keys !! g1 && a1.Keys !! a2.Keys
    ensures m - g1 + a1 - g2 + a2 == m - g2 + a2 - g1 + a1
  {
    var x, y := m - g1 + a1 - g2 + a2, m - g2 + a2 - g1 + a1;
    forall k
      ensures (k in x <==> k in y) && (k in x ==> x[k] == y[k])
    {
      if k in a1.Keys || k in a2.Keys {
      } else {
      }
    }
  }

  // ----- The same task, named the other way round -----

  lemma FindRuleSymmetric(rules: seq<Rule>, a: Ctor, b: Ctor)
    ensures FindRule(rules, a, b) == FindRule(rules, b, a)
  {
  }

  lemma SameTask(sys: System, net: Net, held: set<End>, l: NodeId, r: NodeId)
    requires GoodSystem(sys) && WellFormed(net, held) && Ready(sys, net, l, r) && Ready(sys, net, r, l)
    ensures Interact(sys, net, l, r) == Interact(sys, net, r, l)
  {
    ReadyDistinct(sys, net, l, r);
    var a, b := net.nodes[l].ctor, net.nodes[r].ctor;
    FindRuleSymmetric(sys.rules, a, b);
    FindRuleIn(sys.rules, a, b);
    var rule := FindRule(sys.rules, a, b).value;
    TaskInputs(net, held, l, r);
    AuxFromLength(net.nodes[l], l, 0);
    AuxFromLength(net.nodes[r], r, 0);
    assert rule.left == rule.right && SymmetricRule(sys, rule);
    assert {l, r} == {r, l};
    assert Effect(sys, rule, {l, r}, AuxEnds(net.nodes[l]) + AuxEnds(net.nodes[r]))
        == Effect(sys, rule, {l, r}, AuxEnds(net.nodes[r]) + AuxEnds(net.nodes[l]));
  }

  // ----- Whole runs -----

  datatype Task = Task(left: NodeId, right: NodeId)

  // `tasks`, handled one after the other from `net`, end in `last`.
  ghost predicate Handles(sys: System, net: Net, tasks: seq<Task>, last: Net)
    decreases |tasks|
  {
    if tasks == [] then net == last
    else
      && Matching(net.links)
      && Ready(sys, net, tasks[0].left, tasks[0].right)
      && Handles(sys, Interact(sys, net, tasks[0].left, tasks[0].right), tasks[1..], last)
  }

  // The weight of a run.
  function TotalWeight(sys: System, net: Net, tasks: seq<Task>): nat
    decreases |tasks|
  {
    if tasks == [] || tasks[0].left !in net.nodes || tasks[0].right !in net.nodes then 0
    else
      Weight(sys, net, tasks[0].left, tasks[0].right)
      + TotalWeight(sys, Interact(sys, net, tasks[0].left, tasks[0].right), tasks[1..])
  }

  ghost predicate Finished(sys: System, net: Net) {
    Matching(net.links) && forall l, r :: !Ready(sys, net, l, r)
  }

  // So every net a run reaches is well formed.
  lemma {:induction false} RunWellFormed(sys: System, net: Net, held: set<End>, tasks: seq<Task>, last: Net)
    requires GoodSystem(sys) && WellFormed(net, held) && Handles(sys, net, tasks, last)
    ensures WellFormed(last, held)
    decreases |tasks|
  {
    if tasks != [] {
      InteractWellFormed(sys, net, held, tasks[0].left, tasks[0].right);
      RunWellFormed(sys, Interact(sys, net, tasks[0].left, tasks[0].right), held, tasks[1..], last);
    }
  }

  // A finishing run can be rearranged to begin with any task that is ready.
  lemma {:induction false} BeginWith(sys: System, net: Net, held: set<End>, tasks: seq<Task>, last: Net, t: Task)
    returns (rest: seq<Task>)
    requires GoodSystem(sys) && WellFormed(net, held)
    requires Handles(sys, net, tasks, last) && Finished(sys, last) && Ready(sys, net, t.left, t.right)
    ensures |rest| == |tasks| - 1 && Handles(sys, Interact(sys, net, t.left, t.right), rest, last)
    ensures TotalWeight(sys, net, tasks) == Weight(sys, net, t.left, t.right)
                                     + TotalWeight(sys, Interact(sys, net, t.left, t.right), rest)
    decreases |tasks|
  {
    hide Weight, TaskEffect, Finished;
    NotFinished(sys, net, tasks, last, t);
    var s := tasks[0];
    InteractWellFormed(sys, net, held, s.left, s.right);
    var net1 := Interact(sys, net, s.left, s.right);
    if {s.left, s.right} == {t.left, t.right} {
      rest := tasks[1..];
      SameTaskEither(sys, net, held, s, t);
      SameWeight(sys, net, s, t);
    } else {
      Diamond(sys, net, held, s.left, s.right, t.left, t.right);
      StaysReady(sys, net, held, s.left, s.right, t.left, t.right);
      StaysReady(sys, net, held, t.left, t.right, s.left, s.right);
      var others := BeginWith(sys, net1, held, tasks[1..], last, t);
      rest := [s] + others;
      RunPrepend(sys, Interact(sys, net, t.left, t.right), s, others, last);
    }
  }

  lemma NotFinished(sys: System, net: Net, tasks: seq<Task>, last: Net, t: Task)
    requires Handles(sys, net, tasks, last) && Finished(sys, last)
    requires Matching(net.links) && Ready(sys, net, t.left, t.right)
    ensures tasks != []
  {
  }

  lemma SameWeight(sys: System, net: Net, s: Task, t: Task)
    requires s.left in net.nodes && s.right in net.nodes && t.left in net.nodes && t.right in net.nodes
    requires s == t || (s.left == t.right && s.right == t.left)
    ensures Weight(sys, net, s.left, s.right) == Weight(sys, net, t.left, t.right)
  {
  }

  lemma SameTaskEither(sys: System, net: Net, held: set<End>, s: Task, t: Task)
    requires GoodSystem(sys) && WellFormed(net, held)
    requires Ready(sys, net, s.left, s.right) && Ready(sys, net, t.left, t.right)
    requires {s.left, s.right} == {t.left, t.right}
    ensures s == t || (s.left == t.right && s.right == t.left)
    ensures Interact(sys, net, s.left, s.right) == Interact(sys, net, t.left, t.right)
  {
    ReadyDistinct(sys, net, s.left, s.right);
    ReadyDistinct(sys, net, t.left, t.right);
    if s != t {
      assert s.left == t.right && s.right == t.left;
      SameTask(sys, net, held, s.left, s.right);
    }
  }

  lemma RunPrepend(sys: System, net: Net, s: Task, rest: seq<Task>, last: Net)
    requires Matching(net.links) && Ready(sys, net, s.left, s.right)
    requires Handles(sys, Interact(sys, net, s.left, s.right), rest, last)
    ensures Handles(sys, net, [s] + rest, last)
    ensures TotalWeight(sys, net, [s] + rest)
         == Weight(sys, net, s.left, s.right) + TotalWeight(sys, Interact(sys, net, s.left, s.right), rest)
  {
    hide Weight, TaskEffect;
    assert ([s] + rest)[1..] == rest;
  }

  // Whatever has been done so far, a finishing run is only that much shorter.
  lemma {:induction false} OrderDoesNotMatter(
    sys: System, net: Net, held: set<End>, tasks: seq<Task>, last: Net, other: seq<Task>, mid: Net)
    returns (rest: seq<Task>)
    requires GoodSystem(sys) && WellFormed(net, held)
    requires Handles(sys, net, tasks, last) && Finished(sys, last) && Handles(sys, net, other, mid)
    ensures |other| + |rest| == |tasks| && Handles(sys, mid, rest, last)
    ensures TotalWeight(sys, net, other) + TotalWeight(sys, mid, rest) == TotalWeight(sys, net, tasks)
    decreases |other|
  {
    hide Weight, TaskEffect, Finished;
    if other == [] {
      rest := tasks;
    } else {
      var t := other[0];
      InteractWellFormed(sys, net, held, t.left, t.right);
      var shorter := BeginWith(sys, net, held, tasks, last, t);
      rest := OrderDoesNotMatter(
        sys, Interact(sys, net, t.left, t.right), held, shorter, last, other[1..], mid);
    }
  }

  // Two complete runs handle equally many tasks and end in the same net.
  lemma UniqueResult(
    sys: System, net: Net, held: set<End>, tasks: seq<Task>, last: Net, tasks': seq<Task>, last': Net)
    requires GoodSystem(sys) && WellFormed(net, held)
    requires Handles(sys, net, tasks, last) && Finished(sys, last)
    requires Handles(sys, net, tasks', last') && Finished(sys, last')
    ensures |tasks| == |tasks'| && last == last' && TotalWeight(sys, net, tasks) == TotalWeight(sys, net, tasks')
  {
    var rest := OrderDoesNotMatter(sys, net, held, tasks, last, tasks', last');
    assert rest == [];
  }
}
