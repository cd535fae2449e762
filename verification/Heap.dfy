/**
 `connect` and the wires it fuses.

 A wire has one cell, for the value that the first connector of either of its ends gives it.  The second
 connector finds that value, frees the wire and goes on with the two values.  Between calls every link between
 two ends, at least one of them a wire's, is in exactly one cell.
 */
module Heap {
  import opened Links
  import opened Script
  import opened Machine
  import opened Net
  import opened Confluence
  import opened Loader

  type Cells = map<Wire, Option<End>>

  // The link between `a` and `b` is in the cell of `a`'s wire.
  predicate HeldBy(cells: Cells, a: End, b: End) {
    a.WireEnd? && a.wire in cells && cells[a.wire] == Some(b)
  }

  ghost predicate StoredOnce(cells: Cells, L: Links) {
    forall e {:trigger L[e]} :: e in L && (e.WireEnd? || L[e].WireEnd?) ==>
      HeldBy(cells, e, L[e]) != HeldBy(cells, L[e], e)
  }

  ghost predicate NothingElse(cells: Cells, L: Links) {
    forall w {:trigger cells[w]} :: w in cells && cells[w].Some? ==>
      cells[w].value in L && L[cells[w].value].WireEnd? && L[cells[w].value].wire == w
  }

  // The principal wires of the nodes that are there know each other exactly when they are linked directly.
  ghost predicate Opposites(nodes: map<NodeId, Ctor>, opposite: map<NodeId, NodeId>, L: Links) {
    forall n :: n in nodes ==>
      && (n in opposite <==> Principal(n) in L && L[Principal(n)].Principal?)
      && (n in opposite ==> opposite[n] == L[Principal(n)].node)
  }

  ghost predicate Live(cells: Cells, nodes: map<NodeId, Ctor>, e: End) {
    if e.WireEnd? then e.wire in cells else e.node in nodes
  }

  // Two agents that have met may be gone; everything else that is linked is there.
  ghost predicate AllLive(cells: Cells, nodes: map<NodeId, Ctor>, L: Links) {
    forall e {:trigger L[e]} :: e in L && (e.WireEnd? || L[e].WireEnd?) ==> Live(cells, nodes, e)
  }

  // Between two calls.
  ghost predicate AtRest(cells: Cells, nodes: map<NodeId, Ctor>, opposite: map<NodeId, NodeId>, L: Links) {
    && Matching(L) && StoredOnce(cells, L) && NothingElse(cells, L)
    && Opposites(nodes, opposite, L) && AllLive(cells, nodes, L)
  }

  // ----- Which way the cells point -----

  lemma StoredUnlink(cells: Cells, L: Links, m: End)
    requires Matching(L) && StoredOnce(cells, L) && m in L
    ensures Matching(Unlink(L, m)) && StoredOnce(cells, Unlink(L, m))
  {
    UnlinkMatching(L, m);
    var M := Unlink(L, m);
    forall e | e in M && (e.WireEnd? || M[e].WireEnd?)
      ensures HeldBy(cells, e, M[e]) != HeldBy(cells, M[e], e)
    {
      assert M[e] == L[e];
    }
  }

  // Against the cells, a walk only meets more cells that point at it, and ends at such a wire.
  lemma {:induction false} WalkAgainst(cells: Cells, L: Links, m: End)
    requires Matching(L) && StoredOnce(cells, L) && m in L && (m.WireEnd? || L[m].WireEnd?) && !HeldBy(cells, m, L[m])
    ensures Matching(Unlink(L, m)) && L[m] !in Unlink(L, m)
    ensures var y := Walk(Unlink(L, m), L[m]); y.WireEnd? && y.wire in cells && cells[y.wire].Some?
    decreases |L|
  {
    UnlinkMatching(L, m);
    StoredUnlink(cells, L, m);
    var u, M := L[m], Unlink(L, m);
    assert HeldBy(cells, u, m);
    if u.Mate() in M {
      assert M[u.Mate()] == L[u.Mate()] != m;
      WalkAgainst(cells, M, u.Mate());
    }
  }

  // From an end whose wire has an empty cell one arrives at a wire end.
  lemma WalkEmpty(cells: Cells, L: Links, x: End)
    requires Matching(L) && StoredOnce(cells, L) && x.WireEnd? && x !in L && x.wire in cells && cells[x.wire].None?
    ensures Walk(L, x).WireEnd?
    ensures Walk(L, x) == x.Mate() || (Walk(L, x).wire in cells && cells[Walk(L, x).wire].Some?)
  {
    if x.Mate() in L {
      WalkAgainst(cells, L, x.Mate());
    }
  }

  // ----- Tasks -----

  datatype Found = Found(task: Task, rule: Rule)

  // `rule_match` on the first rule for the two constructors.
  function TaskFor(rules: seq<Rule>, nodes: map<NodeId, Ctor>, l: End, r: End): Option<Found> {
    if l.Principal? && r.Principal? && l.node in nodes && r.node in nodes then
      match FindRule(rules, nodes[l.node], nodes[r.node])
      case None => None
      case Some(rule) =>
        if rule.left == nodes[l.node] && rule.right == nodes[r.node]
        then Some(Found(Task(l.node, r.node), rule))
        else Some(Found(Task(r.node, l.node), rule))
    else None
  }

  // The rule found is the earliest one for the two constructors in either order; none is found only if there is none.
  lemma {:induction false} FirstDeclared(rules: seq<Rule>, a: Ctor, b: Ctor)
    ensures FindRule(rules, a, b).None? <==>
              forall i :: 0 <= i < |rules| ==> {rules[i].left, rules[i].right} != {a, b}
    ensures FindRule(rules, a, b).Some? ==>
              exists i :: 0 <= i < |rules| && rules[i] == FindRule(rules, a, b).value
                && {rules[i].left, rules[i].right} == {a, b}
                && forall j :: 0 <= j < i ==> {rules[j].left, rules[j].right} != {a, b}
    decreases |rules|
  {
    if rules != [] {
      SamePair(rules[0], a, b);
      FirstDeclared(rules[1..], a, b);
      if Matches(rules[0], a, b) {
        assert rules[0] == FindRule(rules, a, b).value;
      } else if FindRule(rules[1..], a, b).Some? {
        var i :| 0 <= i < |rules[1..]| && rules[1..][i] == FindRule(rules, a, b).value
          && {rules[1..][i].left, rules[1..][i].right} == {a, b}
          && forall j :: 0 <= j < i ==> {rules[1..][j].left, rules[1..][j].right} != {a, b};
        assert rules[i + 1] == rules[1..][i];
        forall j | 0 <= j < i + 1
          ensures {rules[j].left, rules[j].right} != {a, b}
        {
          if j > 0 {
            assert rules[j] == rules[1..][j - 1];
          }
        }
      }
      if forall i :: 0 <= i < |rules| ==> {rules[i].left, rules[i].right} != {a, b} {
        forall i | 0 <= i < |rules[1..]|
          ensures {rules[1..][i].left, rules[1..][i].right} != {a, b}
        {
          assert rules[1..][i] == rules[i + 1];
        }
      }
    }
  }

  lemma SamePair(rule: Rule, a: Ctor, b: Ctor)
    ensures Matches(rule, a, b) <==> {rule.left, rule.right} == {a, b}
  {
    if {rule.left, rule.right} == {a, b} {
      assert rule.left in {a, b} && rule.right in {a, b} && a in {rule.left, rule.right}
             && b in {rule.left, rule.right};
    }
  }

  // The task is always turned the way its rule was declared.
  lemma TaskOriented(rules: seq<Rule>, nodes: map<NodeId, Ctor>, l: End, r: End)
    requires TaskFor(rules, nodes, l, r).Some?
    ensures var found := TaskFor(rules, nodes, l, r).value;
            && found.rule in rules && {found.task.left, found.task.right} == {l.node, r.node}
            && found.rule.left == nodes[found.task.left] && found.rule.right == nodes[found.task.right]
  {
    FindRuleIn(rules, nodes[l.node], nodes[r.node]);
  }

  // Which of the two comes first matters exactly when their constructors are the same.
  lemma TaskOrder(rules: seq<Rule>, nodes: map<NodeId, Ctor>, l: End, r: End)
    requires TaskFor(rules, nodes, l, r).Some? && l != r
    ensures TaskFor(rules, nodes, l, r) == TaskFor(rules, nodes, r, l) <==> nodes[l.node] != nodes[r.node]
    ensures nodes[l.node] == nodes[r.node] ==> TaskFor(rules, nodes, l, r).value.task == Task(l.node, r.node)
  {
    FindRuleIn(rules, nodes[l.node], nodes[r.node]);
    FindRuleSymmetric(rules, nodes[l.node], nodes[r.node]);
  }

  // ----- The first rule, as the arrays have it -----

  lemma {:induction false} FindRuleSnoc(rules: seq<Rule>, last: Rule, a: Ctor, b: Ctor)
    ensures FindRule(rules + [last], a, b)
         == if FindRule(rules, a, b).Some? then FindRule(rules, a, b)
            else if Matches(last, a, b) then Some(last) else None
    decreases |rules|
  {
    if rules == [] {
      assert rules + [last] == [last];
      assert [last][1..] == [];
    } else {
      assert (rules + [last])[1..] == rules[1..] + [last];
      FindRuleSnoc(rules[1..], last, a, b);
    }
  }

  lemma {:induction false} FindInArray(rules: seq<Rule>, a: Ctor, b: Ctor)
    ensures FindRule(RulesOf(rules, a), a, b) == FindRule(rules, a, b)
    ensures FindRule(RulesOf(rules, b), a, b) == FindRule(rules, a, b)
    decreases |rules|
  {
    if rules != [] {
      var front, last := rules[..|rules| - 1], rules[|rules| - 1];
      assert rules == front + [last];
      FindInArray(front, a, b);
      FindRuleSnoc(front, last, a, b);
      FindRuleSnoc(RulesOf(front, a), last, a, b);
      FindRuleSnoc(RulesOf(front, b), last, a, b);
      assert RulesOf(front, a) + [] == RulesOf(front, a) && RulesOf(front, b) + [] == RulesOf(front, b);
    }
  }

  // ----- What a call does to the links -----

  // Finding a value in the cell of `l`'s wire: the wire goes, its value takes the place of `l`.
  lemma HitSamePairing(L: Links, l: End, r: End)
    requires Matching(L) && l.WireEnd? && l !in L && r !in L && l != r && l.Mate() in L
    ensures Matching(Unlink(L, l.Mate())) && L[l.Mate()] !in Unlink(L, l.Mate()) && r !in Unlink(L, l.Mate())
    ensures L[l.Mate()] != r
    ensures Inner(Link(L, l, r), l.wire)
    ensures SamePairing(Link(L, l, r), Link(Unlink(L, l.Mate()), L[l.Mate()], r))
  {
    var m := l.Mate();
    UnlinkMatching(L, m);
    LinkMatching(L, l, r);
    HitContract(L, l, r);
    ContractSamePairing(Link(L, l, r), l.wire);
  }

  lemma HitContract(L: Links, l: End, r: End)
    requires Matching(L) && l.WireEnd? && l !in L && r !in L && l != r && l.Mate() in L
    ensures Inner(Link(L, l, r), l.wire)
    ensures Contract(Link(L, l, r), l.wire) == Link(Unlink(L, l.Mate()), L[l.Mate()], r)
  {
    var m := l.Mate();
    var M := Link(L, l, r);
    assert M[l] == r && M[m] == L[m] && L[L[m]] == m;
    if l.side {
      assert Unlink(Unlink(M, m), l) == Unlink(L, m);
      assert Contract(M, l.wire) == Link(Unlink(L, m), L[m], r);
    } else {
      assert Unlink(Unlink(M, l), m) == Unlink(L, m);
      assert Contract(M, l.wire) == Link(Unlink(L, m), r, L[m]);
    }
  }

  // The far ends do not change, unless they are each other's.
  lemma HitWalks(L: Links, l: End, r: End)
    requires Matching(L) && l.WireEnd? && l !in L && r !in L && l != r && l.Mate() in L
    requires Matching(Unlink(L, l.Mate())) && L[l.Mate()] !in Unlink(L, l.Mate()) && r !in Unlink(L, l.Mate())
    ensures Walk(Unlink(L, l.Mate()), L[l.Mate()]) == Walk(L, l)
    ensures Walk(L, l).Principal? ==> Walk(Unlink(L, l.Mate()), r) == Walk(L, r)
    ensures Walk(Unlink(L, l.Mate()), r).Principal? && Walk(L, l).Principal? <==>
              Walk(L, r).Principal? && Walk(L, l).Principal?
  {
    var m := l.Mate();
    var v, M := L[m], Unlink(L, m);
    if Walk(L, l).Principal? && r.WireEnd? {
      PartnerInvolution(M, r);
      if v.WireEnd? {
        PartnerInvolution(M, v);
      }
      assert Walk(M, m) == l;
      assert Walk(M, r) != v && Walk(M, r) != m;
      var A := Link(map[], m, v);
      assert A.Keys == {m, v} && M + A == L;
      WalkUnion(M, A, r);
    }
  }

  // ----- What a call does to the cells -----

  // A link between two principal ports needs no cell.
  lemma PairedAtRest(cells: Cells, nodes: map<NodeId, Ctor>, opposite: map<NodeId, NodeId>, L: Links, l: NodeId,
                     r: NodeId)
    requires AtRest(cells, nodes, opposite, L) && Principal(l) !in L && Principal(r) !in L && l != r
    requires l in nodes && r in nodes
    ensures AtRest(cells, nodes, opposite[l := r][r := l], Link(L, Principal(l), Principal(r)))
  {
    LinkMatching(L, Principal(l), Principal(r));
    var M := Link(L, Principal(l), Principal(r));
    forall e | e in M && (e.WireEnd? || M[e].WireEnd?)
      ensures HeldBy(cells, e, M[e]) != HeldBy(cells, M[e], e)
    {
      assert e in L && M[e] == L[e];
    }
  }

  // The first connector: the empty cell gets the value.
  lemma StoredAtRest(cells: Cells, nodes: map<NodeId, Ctor>, opposite: map<NodeId, NodeId>, L: Links, l: End, r: End)
    requires AtRest(cells, nodes, opposite, L) && l !in L && r !in L && l != r
    requires l.WireEnd? && l.wire in cells && cells[l.wire].None? && Live(cells, nodes, r)
    ensures AtRest(cells[l.wire := Some(r)], nodes, opposite, Link(L, l, r))
  {
    LinkMatching(L, l, r);
    var M, after := Link(L, l, r), cells[l.wire := Some(r)];
    assert !HeldBy(after, r, l) by {
      assert HeldBy(cells, r, l) ==> l in L;
    }
    forall e | e in M && (e.WireEnd? || M[e].WireEnd?)
      ensures HeldBy(after, e, M[e]) != HeldBy(after, M[e], e)
    {
      if e != l && e != r {
        assert e in L && M[e] == L[e];
        assert HeldBy(after, e, M[e]) == HeldBy(cells, e, M[e]);
        assert HeldBy(after, M[e], e) == HeldBy(cells, M[e], e);
      }
    }
  }

  lemma FoundInCell(cells: Cells, L: Links, l: End)
    requires Matching(L) && NothingElse(cells, L) && l.WireEnd? && l !in L && l.wire in cells && cells[l.wire].Some?
    ensures l.Mate() in L && L[l.Mate()] == cells[l.wire].value
  {
    var v := cells[l.wire].value;
    assert L[L[v]] == v && L[v] != l;
  }

  // The second connector: the wire is gone, and so is the link its cell stood for.
  lemma HitAtRest(cells: Cells, nodes: map<NodeId, Ctor>, opposite: map<NodeId, NodeId>, L: Links, l: End)
    requires AtRest(cells, nodes, opposite, L) && l !in L
    requires l.WireEnd? && l.wire in cells && l.Mate() in L && cells[l.wire] == Some(L[l.Mate()])
    ensures AtRest(cells - {l.wire}, nodes, opposite, Unlink(L, l.Mate()))
    ensures Live(cells - {l.wire}, nodes, L[l.Mate()])
  {
    var m, M, after := l.Mate(), Unlink(L, l.Mate()), cells - {l.wire};
    UnlinkMatching(L, m);
    assert HeldBy(cells, m, L[m]) && !HeldBy(cells, L[m], m);
    forall e | e in M
      ensures M[e] == L[e] && (e.WireEnd? || L[e].WireEnd? ==> Live(after, nodes, e))
    {
      assert e != l && e != m;
    }
    forall w | w in after && after[w].Some?
      ensures after[w].value in M && M[after[w].value].WireEnd? && M[after[w].value].wire == w
    {
      var u := after[w].value;
      assert u in L && L[u].wire == w;
      assert u != L[m];
      assert u != m;
    }
  }

  lemma FewerCells(cells: Cells, w: Wire)
    requires w in cells
    ensures |cells - {w}| < |cells|
  {
    assert w in cells.Keys && (cells - {w}).Keys < cells.Keys;
    SmallerSet((cells - {w}).Keys, cells.Keys);
  }

  lemma SamePairingSelf(L: Links)
    requires Matching(L)
    ensures SamePairing(L, L)
  {
  }

  // What connecting `l` and `r` makes of the links: the same pairing, on fewer wires.
  ghost predicate Connected(L: Links, l: End, r: End, M: Links) {
    SamePairing(Link(L, l, r), M)
  }

  // Only wires that had both their ends connected are freed; a cell is written once.
  ghost predicate Freed(before: Cells, after: Cells, L: Links, l: End, r: End) {
    && after.Keys <= before.Keys
    && (forall w :: w in before && w !in after ==> Inner(Link(L, l, r), w))
    && (forall w :: w in after && before[w].Some? ==> after[w] == before[w])
  }

  lemma FreedMore(before: Cells, after: Cells, L: Links, l: End, r: End)
    requires l.WireEnd? && l.wire in before && l.Mate() in L && L[l.Mate()] in L
    requires Freed(before - {l.wire}, after, Unlink(L, l.Mate()), L[l.Mate()], r)
    ensures Freed(before, after, L, l, r)
  {
    var v, M, mid := L[l.Mate()], Unlink(L, l.Mate()), before - {l.wire};
    forall w | w in before && w !in after
      ensures Inner(Link(L, l, r), w)
    {
      if w != l.wire {
        assert w in mid && Inner(Link(M, v, r), w);
      } else {
        assert l.Mate() in Link(L, l, r);
      }
    }
    forall w | w in after
      ensures w in before && (before[w].Some? ==> after[w] == before[w])
    {
      assert w in mid.Keys && mid[w] == before[w];
    }
  }

  // ----- Walking along the cells -----

  // `walk`, from an end that carries no link
  ghost function Forward(cells: Cells, nodes: map<NodeId, Ctor>, opposite: map<NodeId, NodeId>, L: Links, x: End): End
    requires AtRest(cells, nodes, opposite, L) && x !in L && Live(cells, nodes, x)
    decreases |cells|
  {
    if x.Principal? || cells[x.wire].None? then x
    else
      FoundInCell(cells, L, x);
      UnlinkMatching(L, x.Mate());
      HitAtRest(cells, nodes, opposite, L, x);
      FewerCells(cells, x.wire);
      Forward(cells - {x.wire}, nodes, opposite, Unlink(L, x.Mate()), cells[x.wire].value)
  }

  lemma ForwardStep(cells: Cells, nodes: map<NodeId, Ctor>, opposite: map<NodeId, NodeId>, L: Links, x: End)
    requires AtRest(cells, nodes, opposite, L) && x !in L && Live(cells, nodes, x)
    requires x.WireEnd? && cells[x.wire].Some?
    ensures x.Mate() in L && L[x.Mate()] == cells[x.wire].value
    ensures AtRest(cells - {x.wire}, nodes, opposite, Unlink(L, x.Mate()))
    ensures cells[x.wire].value !in Unlink(L, x.Mate()) && Live(cells - {x.wire}, nodes, cells[x.wire].value)
    ensures |cells - {x.wire}| < |cells|
    ensures Forward(cells, nodes, opposite, L, x)
         == Forward(cells - {x.wire}, nodes, opposite, Unlink(L, x.Mate()), cells[x.wire].value)
    ensures Walk(L, x) == Walk(Unlink(L, x.Mate()), cells[x.wire].value)
  {
    FoundInCell(cells, L, x);
    UnlinkMatching(L, x.Mate());
    HitAtRest(cells, nodes, opposite, L, x);
    FewerCells(cells, x.wire);
  }

  // The cells lead to a principal port exactly when the walk does, and then to the same one.
  lemma {:induction false} ForwardPrincipal(
    cells: Cells, nodes: map<NodeId, Ctor>, opposite: map<NodeId, NodeId>, L: Links, x: End)
    requires AtRest(cells, nodes, opposite, L) && x !in L && Live(cells, nodes, x)
    ensures var y := Forward(cells, nodes, opposite, L, x);
            && (y.Principal? <==> Walk(L, x).Principal?) && (y.Principal? ==> y == Walk(L, x))
            && (y.WireEnd? ==> y.wire in cells && cells[y.wire].None?)
    decreases |cells|
  {
    hide AtRest;
    if x.WireEnd? {
      if cells[x.wire].Some? {
        ForwardStep(cells, nodes, opposite, L, x);
        ForwardPrincipal(cells - {x.wire}, nodes, opposite, Unlink(L, x.Mate()), cells[x.wire].value);
      } else {
        AtRestParts(cells, nodes, opposite, L);
        WalkEmpty(cells, L, x);
      }
    }
  }

  lemma AtRestParts(cells: Cells, nodes: map<NodeId, Ctor>, opposite: map<NodeId, NodeId>, L: Links)
    requires AtRest(cells, nodes, opposite, L)
    ensures Matching(L) && StoredOnce(cells, L)
  {
  }

  // A step from `x` does not matter to who walks from `y`: no cell leads into the wire of `x`.
  lemma {:induction false} ForwardAside(
    cells: Cells, nodes: map<NodeId, Ctor>, opposite: map<NodeId, NodeId>, L: Links, x: End, y: End)
    requires AtRest(cells, nodes, opposite, L) && x !in L && Live(cells, nodes, x)
    requires x.WireEnd? && cells[x.wire].Some? && y !in L && y != x && Live(cells, nodes, y)
    ensures AtRest(cells - {x.wire}, nodes, opposite, Unlink(L, x.Mate()))
    ensures y !in Unlink(L, x.Mate()) && Live(cells - {x.wire}, nodes, y)
    ensures Forward(cells - {x.wire}, nodes, opposite, Unlink(L, x.Mate()), y) == Forward(cells, nodes, opposite, L, y)
    decreases |cells|
  {
    hide AtRest, Forward;
    ForwardStep(cells, nodes, opposite, L, x);
    AtRestParts(cells, nodes, opposite, L);
    UnlinkMatching(L, x.Mate());
    assert y != x.Mate();
    var C, M := cells - {x.wire}, Unlink(L, x.Mate());
    if y.WireEnd? && cells[y.wire].Some? {
      ForwardStep(cells, nodes, opposite, L, y);
      var u := cells[y.wire].value;
      NotInto(cells, L, x, y, u);
      ForwardAside(cells - {y.wire}, nodes, opposite, Unlink(L, y.Mate()), x, u);
      ForwardStep(C, nodes, opposite, M, y);
      assert C - {y.wire} == cells - {y.wire} - {x.wire};
      assert Unlink(M, y.Mate()) == Unlink(Unlink(L, y.Mate()), x.Mate());
    } else {
      ForwardStops(cells, nodes, opposite, L, y);
      ForwardStops(C, nodes, opposite, M, y);
    }
  }

  lemma ForwardStops(cells: Cells, nodes: map<NodeId, Ctor>, opposite: map<NodeId, NodeId>, L: Links, y: End)
    requires AtRest(cells, nodes, opposite, L) && y !in L && Live(cells, nodes, y)
    requires y.Principal? || cells[y.wire].None?
    ensures Forward(cells, nodes, opposite, L, y) == y
  {
  }

  lemma NotInto(cells: Cells, L: Links, x: End, y: End, u: End)
    requires Matching(L) && StoredOnce(cells, L) && x.WireEnd? && y.WireEnd? && x != y && x !in L && y !in L
    requires x.wire in cells && x.Mate() in L && cells[x.wire] == Some(L[x.Mate()])
    requires y.wire in cells && y.Mate() in L && cells[y.wire] == Some(L[y.Mate()]) && u == L[y.Mate()]
    ensures u != x && u != x.Mate() && L[x.Mate()] != y.Mate()
  {
    assert HeldBy(cells, x.Mate(), L[x.Mate()]);
    assert HeldBy(cells, y.Mate(), L[y.Mate()]);
    assert L[L[y.Mate()]] == y.Mate();
  }

  // What a C pointer to an end tells: the wire, not the side.
  datatype Pointer = ToWire(wire: Wire) | ToPrincipal(node: NodeId)

  function PointerTo(e: End): Pointer {
    if e.WireEnd? then ToWire(e.wire) else ToPrincipal(e.node)
  }

  // Two wire ends lead to the same place exactly when they face each other.
  lemma {:induction false} SamePlace(
    cells: Cells, nodes: map<NodeId, Ctor>, opposite: map<NodeId, NodeId>, L: Links, x: End, y: End)
    requires AtRest(cells, nodes, opposite, L) && x !in L && y !in L && x != y
    requires Live(cells, nodes, x) && Live(cells, nodes, y)
    requires Forward(cells, nodes, opposite, L, x).WireEnd? && Forward(cells, nodes, opposite, L, y).WireEnd?
    ensures PointerTo(Forward(cells, nodes, opposite, L, x)) == PointerTo(Forward(cells, nodes, opposite, L, y))
       <==> Walk(L, x) == y
    decreases |cells|
  {
    hide AtRest, Forward;
    AtRestParts(cells, nodes, opposite, L);
    if x.Principal? || y.Principal? {
      ForwardStops(cells, nodes, opposite, L, if x.Principal? then x else y);
      assert false;
    } else if cells[x.wire].Some? {
      ForwardStep(cells, nodes, opposite, L, x);
      ForwardAside(cells, nodes, opposite, L, x, y);
      SamePlace(cells - {x.wire}, nodes, opposite, Unlink(L, x.Mate()), cells[x.wire].value, y);
    } else if cells[y.wire].Some? {
      ForwardStep(cells, nodes, opposite, L, y);
      ForwardAside(cells, nodes, opposite, L, y, x);
      SamePlace(cells - {y.wire}, nodes, opposite, Unlink(L, y.Mate()), cells[y.wire].value, x);
      PartnerInvolution(L, x);
      PartnerInvolution(L, y);
    } else {
      ForwardStops(cells, nodes, opposite, L, x);
      ForwardStops(cells, nodes, opposite, L, y);
      WalkEmpty(cells, L, x);
    }
  }

  ghost function Reached(cells: Cells, nodes: map<NodeId, Ctor>, opposite: map<NodeId, NodeId>, L: Links, x: End): End
    requires AtRest(cells, nodes, opposite, L) && Outer(L, x) && Live(cells, nodes, x)
  {
    if x.Principal? then x else Forward(cells, nodes, opposite, L, x)
  }

  // At rest, two principal ports face each other only when they are linked directly.
  lemma PrincipalFaces(cells: Cells, nodes: map<NodeId, Ctor>, opposite: map<NodeId, NodeId>, L: Links, p: End)
    requires AtRest(cells, nodes, opposite, L) && p.Principal? && p in L
    ensures L[p].Principal? ==> Partner(L, p) == L[p]
    ensures L[p].WireEnd? ==> Partner(L, p).WireEnd? && p.node in nodes && p.node !in opposite
  {
    if L[p].WireEnd? {
      WalkAgainst(cells, L, p);
    }
  }

  lemma OppositePrincipals(
    cells: Cells, nodes: map<NodeId, Ctor>, opposite: map<NodeId, NodeId>, L: Links, x: End, y: End, p: End, q: End)
    requires AtRest(cells, nodes, opposite, L) && x != y && Outer(L, x) && Outer(L, y)
    requires Live(cells, nodes, x) && Live(cells, nodes, y) && p.Principal? && q.Principal?
    requires if x.Principal? then p == x else Walk(L, x) == p
    requires if y.Principal? then q == y else Walk(L, y) == q
    ensures Partner(L, x) == y <==>
            p == q || (p.node in opposite && opposite[p.node] == q.node && q.node in opposite
                       && opposite[q.node] == p.node)
  {
    AtRestParts(cells, nodes, opposite, L);
    PartnerInvolution(L, x);
    PartnerInvolution(L, y);
    hide Partner, StoredOnce, NothingElse, AllLive;
    PrincipalFaces(cells, nodes, opposite, L, p);
    PrincipalFaces(cells, nodes, opposite, L, q);
  }

  // What `is_connected` computes says whether the two ends face each other.
  lemma ConnectedMeans(cells: Cells, nodes: map<NodeId, Ctor>, opposite: map<NodeId, NodeId>, L: Links, x: End, y: End)
    requires AtRest(cells, nodes, opposite, L) && x != y && Outer(L, x) && Outer(L, y)
    requires Live(cells, nodes, x) && Live(cells, nodes, y)
    ensures var x', y' := Reached(cells, nodes, opposite, L, x), Reached(cells, nodes, opposite, L, y);
            Partner(L, x) == y <==>
              if x'.Principal? && y'.Principal?
              then x' == y' || (x'.node in opposite && opposite[x'.node] == y'.node
                                && y'.node in opposite && opposite[y'.node] == x'.node)
              else PointerTo(x') == PointerTo(y')
  {
    hide Forward;
    PartnerInvolution(L, x);
    PartnerInvolution(L, y);
    if x.WireEnd? {
      ForwardPrincipal(cells, nodes, opposite, L, x);
    }
    if y.WireEnd? {
      ForwardPrincipal(cells, nodes, opposite, L, y);
    }
    var x', y' := Reached(cells, nodes, opposite, L, x), Reached(cells, nodes, opposite, L, y);
    if x.WireEnd? && y.WireEnd? && x'.WireEnd? && y'.WireEnd? {
      SamePlace(cells, nodes, opposite, L, x, y);
    }
    if x'.Principal? && y'.Principal? {
      OppositePrincipals(cells, nodes, opposite, L, x, y, x', y');
    }
  }

  // Two ends are the same, or look at each other along a path that joins them.
  ghost predicate Faces(L: Links, x: End, y: End)
    requires Matching(L)
  {
    x == y || (Outer(L, x) && Outer(L, y) && Partner(L, x) == y)
  }

  lemma FacesSymmetric(L: Links, x: End, y: End)
    requires Matching(L)
    ensures Faces(L, x, y) <==> Faces(L, y, x)
  {
    if Outer(L, x) {
      PartnerInvolution(L, x);
    }
    if Outer(L, y) {
      PartnerInvolution(L, y);
    }
  }

  // A principal port nobody has connected yet faces nothing, and nothing walks to it.
  lemma UnconnectedPrincipal(
    cells: Cells, nodes: map<NodeId, Ctor>, opposite: map<NodeId, NodeId>, L: Links, x: End, y: End)
    requires AtRest(cells, nodes, opposite, L) && x != y && x.Principal? && x !in L
    requires Live(cells, nodes, x) && Live(cells, nodes, y) && (y.WireEnd? ==> y !in L)
    ensures x.node !in opposite
    ensures y.WireEnd? ==> Forward(cells, nodes, opposite, L, y) != x
  {
    if y.WireEnd? {
      ForwardPrincipal(cells, nodes, opposite, L, y);
      PartnerInvolution(L, y);
    }
  }

  lemma MoreAtRest(cells: Cells, nodes: map<NodeId, Ctor>, opposite: map<NodeId, NodeId>, L: Links, w: Wire)
    requires AtRest(cells, nodes, opposite, L) && w !in cells
    ensures AtRest(cells[w := None], nodes, opposite, L)
  {
    var more := cells[w := None];
    forall e | e in L && (e.WireEnd? || L[e].WireEnd?)
      ensures HeldBy(more, e, L[e]) == HeldBy(cells, e, L[e]) && HeldBy(more, L[e], e) == HeldBy(cells, L[e], e)
    {
    }
    forall x | x in more && more[x].Some?
      ensures more[x].value in L && L[more[x].value].WireEnd? && L[more[x].value].wire == x
    {
      assert x in cells && cells[x] == more[x];
    }
  }

  lemma LessAtRest(cells: Cells, nodes: map<NodeId, Ctor>, opposite: map<NodeId, NodeId>, L: Links, n: NodeId)
    requires AtRest(cells, nodes, opposite, L) && n in nodes && n in opposite
    ensures AtRest(cells, nodes - {n}, opposite - {n}, L)
  {
    assert Principal(n) in L && L[Principal(n)].Principal?;
    forall e | e in L && (e.WireEnd? || L[e].WireEnd?)
      ensures Live(cells, nodes - {n}, e)
    {
      assert e != Principal(n);
    }
  }

  // ----- The state -----

  class Store {
    const mod: Mod
    var cells: Cells
    var opposite: map<NodeId, NodeId>
    var nodes: map<NodeId, Ctor>
    ghost var links: Links

    ghost predicate Valid()
      reads this, mod
    {
      mod.Valid() && AtRest(cells, nodes, opposite, links)
    }

    // An end somebody holds: its wire or node is there, and it has not been connected.
    ghost predicate Holds(e: End)
      reads this
    {
      e !in links && Live(cells, nodes, e)
    }

    constructor (mod: Mod)
      requires mod.Valid()
      ensures Valid() && this.mod == mod && links == map[] && cells == map[] && nodes == map[]
    {
      this.mod := mod;
      cells, opposite, nodes, links := map[], map[], map[], map[];
    }

    // What is at rest already.
    constructor Of(mod: Mod, cells: Cells, nodes: map<NodeId, Ctor>, opposite: map<NodeId, NodeId>, ghost links: Links)
      requires mod.Valid() && AtRest(cells, nodes, opposite, links)
      ensures Valid() && this.mod == mod && this.links == links
      ensures this.cells == cells && this.nodes == nodes && this.opposite == opposite
    {
      this.mod := mod;
      this.cells, this.nodes, this.opposite, this.links := cells, nodes, opposite, links;
    }

    // `wire_new`: the caller holds both ends.
    method NewWire(w: Wire)
      requires Valid() && w !in cells && WireEnd(w, false) !in links && WireEnd(w, true) !in links
      modifies this`cells
      ensures Valid() && cells == old(cells)[w := None]
      ensures Holds(WireEnd(w, false)) && Holds(WireEnd(w, true))
      ensures forall e :: old(Holds(e)) ==> Holds(e)
    {
      MoreAtRest(cells, nodes, opposite, links, w);
      cells := cells[w := None];
    }

    // A new node with its `principal_wire_new`: the caller holds the principal port.
    method NewNode(n: NodeId, ctor: Ctor)
      requires Valid() && n !in nodes && n !in opposite && Principal(n) !in links
      modifies this`nodes
      ensures Valid() && nodes == old(nodes)[n := ctor] && Holds(Principal(n))
      ensures forall e :: old(Holds(e)) ==> Holds(e)
    {
      nodes := nodes[n := ctor];
    }

    // The node is recycled once its principal port has been connected to another one and the ends in its slots have
    // been handed on.
    method DropNode(n: NodeId)
      requires Valid() && n in nodes && n in opposite
      modifies this`nodes, this`opposite
      ensures Valid() && nodes == old(nodes) - {n} && opposite == old(opposite) - {n}
    {
      LessAtRest(cells, nodes, opposite, links, n);
      nodes, opposite := nodes - {n}, opposite - {n};
    }

    // `rule_match` over one array.
    method FindTask(rules: seq<Rule>, l: NodeId, r: NodeId) returns (found: Option<Found>)
      requires l in nodes && r in nodes
      ensures found == TaskFor(rules, nodes, Principal(l), Principal(r))
    {
      var i := 0;
      while i < |rules|
        invariant i <= |rules|
        invariant FindRule(rules, nodes[l], nodes[r]) == FindRule(rules[i..], nodes[l], nodes[r])
      {
        var rule := rules[i];
        assert rules[i..][0] == rule && rules[i..][1..] == rules[i + 1..];
        if rule.left == nodes[l] && rule.right == nodes[r] {
          return Some(Found(Task(l, r), rule));
        } else if rule.left == nodes[r] && rule.right == nodes[l] {
          return Some(Found(Task(r, l), rule));
        }
        i := i + 1;
      }
      return None;
    }

    // `connect_active_pair`
    method ConnectActivePair(l: NodeId, r: NodeId) returns (found: Option<Found>)
      requires Valid() && Holds(Principal(l)) && Holds(Principal(r)) && l != r
      modifies this`opposite, this`links
      ensures Valid() && links == Link(old(links), Principal(l), Principal(r))
      ensures opposite == old(opposite)[l := r][r := l]
      ensures found == TaskFor(mod.rules, nodes, Principal(l), Principal(r))
    {
      opposite := opposite[l := r][r := l];
      links := Link(links, Principal(l), Principal(r));
      PairedAtRest(cells, nodes, old(opposite), old(links), l, r);
      FindInArray(mod.rules, nodes[l], nodes[r]);
      found := FindTask(mod.RuleArray(nodes[l]), l, r);
      if found.Some? { return; }
      found := FindTask(mod.RuleArray(nodes[r]), l, r);
    }

    // `fuze`: the first connector leaves its value, the second frees the wire and connects the two values.
    method Fuze(l: End, r: End) returns (found: Option<Found>)
      requires Valid() && Holds(l) && Holds(r) && l != r && l.WireEnd?
      modifies this`cells, this`opposite, this`links
      ensures Valid() && Connected(old(links), l, r, links)
      ensures Freed(old(cells), cells, old(links), l, r)
      ensures found == if r.Principal? then TaskFor(mod.rules, nodes, Walk(old(links), l), r)
                       else TaskFor(mod.rules, nodes, Walk(old(links), r), Walk(old(links), l))
      decreases |cells|, 0
    {
      var w := l.wire;
      if cells[w].None? {
        WalkEmpty(cells, links, l);
        StoredAtRest(cells, nodes, opposite, links, l, r);
        cells := cells[w := Some(r)];
        links := Link(links, l, r);
        return None;
      } else {
        var v := cells[w].value;
        FoundInCell(cells, links, l);
        HitSamePairing(links, l, r);
        HitWalks(links, l, r);
        HitAtRest(cells, nodes, opposite, links, l);
        FewerCells(cells, w);
        cells := cells - {w};
        links := Unlink(links, l.Mate());
        found := Connect(v, r);
        SamePairingTransitive(Link(old(links), l, r), Link(Unlink(old(links), l.Mate()), v, r), links);
        FreedMore(old(cells), cells, old(links), l, r);
      }
    }

    method Connect(l: End, r: End) returns (found: Option<Found>)
      requires Valid() && Holds(l) && Holds(r) && l != r
      modifies this`cells, this`opposite, this`links
      ensures Valid() && Connected(old(links), l, r, links)
      ensures Freed(old(cells), cells, old(links), l, r)
      ensures found == if r.Principal? then TaskFor(mod.rules, nodes, Walk(old(links), l), r)
                       else TaskFor(mod.rules, nodes, Walk(old(links), r), Walk(old(links), l))
      decreases |cells|, 1
    {
      hide SamePairing, StoredOnce, NothingElse, Opposites, AllLive, TaskFor, Partner;
      if l.Principal? && r.Principal? {
        found := ConnectActivePair(l.node, r.node);
        SamePairingSelf(links);
      } else if l.WireEnd? {
        found := Fuze(l, r);
      } else {
        found := Fuze(r, l);
        assert Link(old(links), l, r) == Link(old(links), r, l);
      }
    }

    // `walk`
    method WalkCells(x: End) returns (y: End)
      requires Valid() && (x.WireEnd? ==> Holds(x))
      ensures y == if x.Principal? then x else Forward(cells, nodes, opposite, links, x)
      ensures y.WireEnd? ==> y.wire in cells && cells[y.wire].None?
      ensures x.WireEnd? ==> Matching(links) && x !in links && (y.Principal? <==> Walk(links, x).Principal?)
      ensures x.WireEnd? && y.Principal? ==> Matching(links) && x !in links && y == Walk(links, x)
    {
      if x.WireEnd? {
        ForwardPrincipal(cells, nodes, opposite, links, x);
      }
      y := x;
      ghost var C, L := cells, links;
      while y.WireEnd? && cells[y.wire].Some?
        invariant C.Keys <= cells.Keys && forall w :: w in C ==> C[w] == cells[w]
        invariant x.Principal? ==> y == x
        invariant x.WireEnd? ==> AtRest(C, nodes, opposite, L) && y !in L && Live(C, nodes, y)
        invariant x.WireEnd? ==> Forward(C, nodes, opposite, L, y) == Forward(cells, nodes, opposite, links, x)
        decreases |C|
      {
        ForwardStep(C, nodes, opposite, L, y);
        C, L, y := C - {y.wire}, Unlink(L, y.Mate()), cells[y.wire].value;
      }
      if x.WireEnd? {
        ForwardStops(C, nodes, opposite, L, y);
      }
    }

    // `is_connected`, on what a slot or a stack holds
    method IsConnected(x: End, y: End) returns (connected: bool)
      requires Valid() && (x.WireEnd? ==> x !in links) && (y.WireEnd? ==> y !in links)
      requires Live(cells, nodes, x) && Live(cells, nodes, y)
      ensures Matching(links) && (connected <==> Faces(links, x, y))
    {
      hide Forward, StoredOnce, NothingElse, AllLive, Opposites, Partner;
      var x' := WalkCells(x);
      var y' := WalkCells(y);
      if x != y {
        if x.Principal? && x !in links {
          UnconnectedPrincipal(cells, nodes, opposite, links, x, y);
        } else if y.Principal? && y !in links {
          UnconnectedPrincipal(cells, nodes, opposite, links, y, x);
        } else {
          ConnectedMeans(cells, nodes, opposite, links, x, y);
        }
      }
      if x'.Principal? && y'.Principal? {
        connected := x' == y' || (x'.node in opposite && opposite[x'.node] == y'.node
                                  && y'.node in opposite && opposite[y'.node] == x'.node);
      } else {
        connected := PointerTo(x') == PointerTo(y');
      }
    }
  }
}
