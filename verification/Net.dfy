/**
 Interaction nets: agents, the pairing of their ports, and one interaction.

 Wires are never contracted and links never removed here, so a net is its agents plus a growing set of links;
 which ports face each other is `Partner`.  Handling a task takes away two agents and adds what the rule body
 builds from the ends they held.
 */
module Net {
  import opened Links
  import opened Script
  import opened Machine

  datatype Rule = Rule(left: Ctor, right: Ctor, body: nat)

  datatype System = System(program: seq<Function>, rules: seq<Rule>)

  datatype Net = Net(nodes: map<NodeId, Node>, links: Links, wires: set<Wire>, dead: set<NodeId>)

  predicate Matches(rule: Rule, a: Ctor, b: Ctor) {
    (rule.left == a && rule.right == b) || (rule.left == b && rule.right == a)
  }

  // The first rule declared for the two constructors, in either order.
  function FindRule(rules: seq<Rule>, a: Ctor, b: Ctor): Option<Rule> {
    if rules == [] then None
    else if Matches(rules[0], a, b) then Some(rules[0])
    else FindRule(rules[1..], a, b)
  }

  // ----- What two agents leave behind -----

  // The ends in the slots from `i` on, without the principal one.
  function AuxFrom(node: Node, i: nat): seq<End>
    decreases node.ctor.Arity() - i
  {
    if i >= node.ctor.Arity() then []
    else if i in node.slots && node.slots[i].WireEnd? then [node.slots[i]] + AuxFrom(node, i + 1)
    else AuxFrom(node, i + 1)
  }

  function AuxEnds(node: Node): seq<End> {
    AuxFrom(node, 0)
  }

  function AuxCountFrom(ctor: Ctor, i: nat): nat
    decreases ctor.Arity() - i
  {
    if i >= ctor.Arity() then 0
    else (if ctor.IsPrincipal(i) then 0 else 1) + AuxCountFrom(ctor, i + 1)
  }

  function AuxCount(ctor: Ctor): nat {
    AuxCountFrom(ctor, 0)
  }

  function Refs(ends: seq<End>): seq<Value> {
    seq(|ends|, i requires 0 <= i < |ends| => Ref(ends[i]))
  }

  function EndSet(ends: seq<End>): set<End> {
    set e | e in ends
  }

  ghost predicate NoRepeats(ends: seq<End>) {
    forall i, j :: 0 <= i < j < |ends| ==> ends[i] != ends[j]
  }

  // ----- Running a rule body -----

  function RunBody(sys: System, rule: Rule, makers: set<NodeId>, ins: seq<End>): Outcome {
    if rule.body < |sys.program|
    then Call(sys.program, rule.body, World(makers, 0, Refs(ins), []))
    else Stuck(0)
  }

  // What the body does to the ends.
  function BodyScript(sys: System, rule: Rule, makers: set<NodeId>, ins: seq<End>): seq<Action> {
    var o := RunBody(sys, rule, makers, ins);
    if o.Done? then o.world.script else []
  }

  // How much work an action gives rise to, now or later: a node has to be locked, read and given back, a wire freed.
  function Size(a: Action): nat {
    match a
    case NewWire(_) => 3
    case Join(_, _) => 4
    case Begin(_, ctor) => ctor.Arity() + 3
    case Fill(_, _, _) => 1
    case Finish(_) => 1
  }

  function ScriptSize(script: seq<Action>): nat {
    if script == [] then 0 else Size(script[0]) + ScriptSize(script[1..])
  }

  ghost predicate BodyOk(sys: System, rule: Rule, makers: set<NodeId>, ins: seq<End>) {
    var o := RunBody(sys, rule, makers, ins);
    o.Done? && o.world.stack == [] && Linear(makers, EndSet(ins), o.world.script)
  }

  function Effect(sys: System, rule: Rule, makers: set<NodeId>, ins: seq<End>): Build {
    var o := RunBody(sys, rule, makers, ins);
    if o.Done? && AllAllowed(Start(makers, EndSet(ins)), o.world.script)
    then PerformAll(Start(makers, EndSet(ins)), o.world.script)
    else Start(makers, {})
  }

  // Ends that a body under `makers` may be handed.
  ghost predicate Inputs(makers: set<NodeId>, ins: seq<End>) {
    NoRepeats(ins) && forall e :: e in ins ==> e.WireEnd? && e.wire.makers != makers
  }

  // The body uses each end it is given or makes exactly once and leaves nothing on the stack.
  ghost predicate GoodRule(sys: System, rule: Rule) {
    forall makers, ins {:trigger BodyOk(sys, rule, makers, ins)} ::
      Inputs(makers, ins) && |ins| == AuxCount(rule.left) + AuxCount(rule.right) ==> BodyOk(sys, rule, makers, ins)
  }

  // A rule between equal constructors must not tell its two sides apart.
  ghost predicate SymmetricRule(sys: System, rule: Rule) {
    forall makers, a, b {:trigger Effect(sys, rule, makers, a + b)} ::
      Inputs(makers, a + b) && |a| == AuxCount(rule.left) && |b| == AuxCount(rule.right) ==>
        Effect(sys, rule, makers, a + b) == Effect(sys, rule, makers, b + a)
  }

  ghost predicate GoodSystem(sys: System) {
    forall rule :: rule in sys.rules ==>
      GoodRule(sys, rule) && (rule.left == rule.right ==> SymmetricRule(sys, rule))
  }

  // ----- One interaction -----

  ghost predicate Active(net: Net, l: NodeId, r: NodeId)
    requires Matching(net.links)
  {
    && l in net.nodes && r in net.nodes && Principal(l) in net.links
    && Partner(net.links, Principal(l)) == Principal(r)
  }

  // An active pair for which a rule is declared, in the order of the rule.
  ghost predicate Ready(sys: System, net: Net, l: NodeId, r: NodeId)
    requires Matching(net.links)
  {
    && Active(net, l, r)
    && var found := FindRule(sys.rules, net.nodes[l].ctor, net.nodes[r].ctor);
    found.Some? && found.value.left == net.nodes[l].ctor && found.value.right == net.nodes[r].ctor
  }

  function TaskIns(net: Net, l: NodeId, r: NodeId): seq<End>
    requires l in net.nodes && r in net.nodes
  {
    AuxEnds(net.nodes[l]) + AuxEnds(net.nodes[r])
  }

  function TaskEffect(sys: System, net: Net, l: NodeId, r: NodeId): Build
    requires l in net.nodes && r in net.nodes
  {
    match FindRule(sys.rules, net.nodes[l].ctor, net.nodes[r].ctor)
    case None => Start({l, r}, {})
    case Some(rule) => Effect(sys, rule, {l, r}, TaskIns(net, l, r))
  }

  // The script of the body for two nodes, in the order given.
  function TaskScript(sys: System, net: Net, l: NodeId, r: NodeId): seq<Action>
    requires l in net.nodes && r in net.nodes
  {
    match FindRule(sys.rules, net.nodes[l].ctor, net.nodes[r].ctor)
    case None => []
    case Some(rule) => BodyScript(sys, rule, {l, r}, TaskIns(net, l, r))
  }

  // Which of the two nodes comes first does not matter to the weight.
  function Weight(sys: System, net: Net, l: NodeId, r: NodeId): nat
    requires l in net.nodes && r in net.nodes
  {
    1 + ScriptSize(TaskScript(sys, net, l, r)) + ScriptSize(TaskScript(sys, net, r, l))
  }

  function Replace(net: Net, gone: set<NodeId>, b: Build): Net {
    Net(net.nodes - gone + b.nodes, net.links + b.links, net.wires + b.wires, net.dead + gone)
  }

  function Interact(sys: System, net: Net, l: NodeId, r: NodeId): Net
    requires l in net.nodes && r in net.nodes
  {
    Replace(net, {l, r}, TaskEffect(sys, net, l, r))
  }

  // ----- What holds of every net -----

  // `held` are the ends on the stack of whoever built the net.
  ghost predicate Placed(net: Net, held: set<End>) {
    && Matching(net.links)
    && DistinctSlots(net.nodes)
    && (forall e :: InSlot(net.nodes, e) && e.WireEnd? ==> e !in net.links && e !in held && e.wire in net.wires)
    && (forall e :: e in held ==> e !in net.links)
    && (forall e :: e in net.links && e.WireEnd? ==> e.wire in net.wires)
    && (forall e :: e in held ==> if e.WireEnd? then e.wire in net.wires else e.node in net.nodes || e.node in net.dead)
  }

  // No end is lost: each is linked, in a slot, or held.
  ghost predicate Conserved(net: Net, held: set<End>) {
    && (forall w, s :: w in net.wires ==>
          var e := WireEnd(w, s); e in net.links || InSlot(net.nodes, e) || e in held)
    && (forall n :: n in net.nodes ==> Principal(n) in net.links || Principal(n) in held)
  }

  ghost predicate Fresh(net: Net) {
    && net.nodes.Keys !! net.dead
    && (forall w :: w in net.wires ==> w.makers <= net.dead)
    && (forall n :: n in net.nodes ==> n.makers <= net.dead)
    && (forall n :: n in net.dead ==> n.makers <= net.dead)
    && (forall e :: e in net.links && e.Principal? ==> e.node in net.nodes || e.node in net.dead)
  }

  ghost predicate Built(net: Net) {
    forall n :: n in net.nodes ==> net.nodes[n].Complete() && net.nodes[n].WellBuilt(n)
  }

  ghost predicate WellFormed(net: Net, held: set<End>) {
    Placed(net, held) && Conserved(net, held) && Fresh(net) && Built(net)
  }

  // What a program has built, as a net.
  function AsNet(b: Build): Net {
    Net(b.nodes, b.links, b.wires, {})
  }
}
