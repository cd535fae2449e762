/**
 Which nodes are next to each other, and the walk through everything that hangs together with a node.
 */
module Traversal {
  import opened Links
  import opened Script
  import opened Machine
  import opened Net
  import opened Heap

  // ----- Adjacency -----

  datatype Adjacency = Adjacency(start: NodeId, startPort: nat, endPort: nat, end: NodeId)

  // Every slot holds something that is there and that nobody has connected away.
  ghost predicate Standing(store: Store, nodes: map<NodeId, Node>)
    reads store, store.mod
  {
    && store.Valid()
    && forall n {:trigger nodes[n]} :: n in nodes ==> nodes[n].Complete() && SlotsThere(store, nodes[n])
  }

  ghost predicate SlotsThere(store: Store, node: Node)
    reads store
  {
    forall i :: i in node.slots ==>
      Live(store.cells, store.nodes, node.slots[i]) && (node.slots[i].WireEnd? ==> node.slots[i] !in store.links)
  }

  ghost predicate PortsFace(L: Links, a: Node, i: nat, b: Node, j: nat)
    requires Matching(L)
  {
    && i < a.ctor.Arity() && i in a.slots && j < b.ctor.Arity() && j in b.slots
    && Faces(L, a.slots[i], b.slots[j])
  }

  // Some port of the one faces some port of the other.
  ghost predicate Next(L: Links, nodes: map<NodeId, Node>, a: NodeId, b: NodeId)
    requires Matching(L) && a in nodes && b in nodes
  {
    a != b && exists i: nat, j: nat :: PortsFace(L, nodes[a], i, nodes[b], j)
  }

  lemma NextSymmetric(L: Links, nodes: map<NodeId, Node>, a: NodeId, b: NodeId)
    requires Matching(L) && a in nodes && b in nodes && Next(L, nodes, a, b)
    ensures Next(L, nodes, b, a)
  {
    var i: nat, j: nat :| PortsFace(L, nodes[a], i, nodes[b], j);
    FacesSymmetric(L, nodes[a].slots[i], nodes[b].slots[j]);
    assert PortsFace(L, nodes[b], j, nodes[a], i);
  }

  // The entry says which ports face each other: the first port of the one that faces any of the other, and the first
  // one that it faces.
  ghost predicate FirstPorts(L: Links, nodes: map<NodeId, Node>, f: Adjacency)
    requires Matching(L)
  {
    && f.start in nodes && f.end in nodes
    && PortsFace(L, nodes[f.start], f.startPort, nodes[f.end], f.endPort)
    && (forall k: nat, j: nat :: k < f.startPort ==> !PortsFace(L, nodes[f.start], k, nodes[f.end], j))
    && (forall j: nat :: j < f.endPort ==> !PortsFace(L, nodes[f.start], f.startPort, nodes[f.end], j))
  }

  // `node_adjacency_new_maybe`: the first pair of ports that face each other.
  method NewAdjacency(store: Store, nodes: map<NodeId, Node>, a: NodeId, b: NodeId) returns (found: Option<Adjacency>)
    requires Standing(store, nodes) && a in nodes && b in nodes
    ensures Matching(store.links) && (found.Some? <==> Next(store.links, nodes, a, b))
    ensures found.Some? ==> var f := found.value;
              f.start == a && f.end == b && FirstPorts(store.links, nodes, f)
  {
    hide Faces;
    if a == b {
      return None;
    }
    var i := 0;
    while i < nodes[a].ctor.Arity()
      invariant i <= nodes[a].ctor.Arity()
      invariant forall k: nat, j: nat :: k < i ==> !PortsFace(store.links, nodes[a], k, nodes[b], j)
    {
      var j := 0;
      while j < nodes[b].ctor.Arity()
        invariant j <= nodes[b].ctor.Arity()
        invariant forall k: nat :: k < j ==> !PortsFace(store.links, nodes[a], i, nodes[b], k)
      {
        var faces := store.IsConnected(nodes[a].slots[i], nodes[b].slots[j]);
        if faces {
          assert PortsFace(store.links, nodes[a], i, nodes[b], j);
          return Some(Adjacency(a, i, j, b));
        }
        j := j + 1;
      }
      i := i + 1;
    }
    return None;
  }

  type Adjacencies = map<NodeId, seq<Adjacency>>

  ghost predicate Leads(adjacent: Adjacencies, a: NodeId, b: NodeId) {
    a in adjacent && exists i :: 0 <= i < |adjacent[a]| && adjacent[a][i].end == b
  }

  // `build_node_adjacency_hash` for the nodes of `all`.
  method BuildAdjacencies(store: Store, nodes: map<NodeId, Node>, all: seq<NodeId>) returns (adjacent: Adjacencies)
    requires Standing(store, nodes) && forall i :: 0 <= i < |all| ==> all[i] in nodes
    ensures Matching(store.links) && forall n :: n in adjacent <==> n in all
    ensures forall a, b :: a in all ==>
              (Leads(adjacent, a, b) <==> b in all && b in nodes && Next(store.links, nodes, a, b))
    ensures forall a :: a in all ==> Lists(store.links, nodes, all, a, adjacent[a])
  {
    hide Next, FirstPorts;
    adjacent := map[];
    for i := 0 to |all|
      invariant forall n :: n in adjacent <==> n in all[..i]
      invariant forall a :: a in all[..i] ==> Lists(store.links, nodes, all, a, adjacent[a])
    {
      var x := all[i];
      var list := [];
      for j := 0 to |all|
        invariant Lists(store.links, nodes, all[..j], x, list)
      {
        var found := NewAdjacency(store, nodes, x, all[j]);
        assert all[..j + 1] == all[..j] + [all[j]];
        MoreListed(store.links, nodes, all[..j], x, list, all[j], found);
        if found.Some? {
          list := list + [found.value];
        }
      }
      assert all[..|all|] == all && all[..i + 1] == all[..i] + [x];
      adjacent := adjacent[x := list];
    }
    assert all[..|all|] == all;
    forall a, b | a in all
      ensures Leads(adjacent, a, b) <==> b in all && b in nodes && Next(store.links, nodes, a, b)
    {
      assert Lists(store.links, nodes, all, a, adjacent[a]);
      ListedEnds(store.links, nodes, all, a, adjacent[a], b);
      assert Leads(adjacent, a, b) <==> Ends(adjacent[a], b);
    }
  }

  ghost predicate Ends(list: seq<Adjacency>, b: NodeId) {
    exists i :: 0 <= i < |list| && list[i].end == b
  }

  // The nodes of `all` that are next to `a`, in order.
  ghost function NextOf(L: Links, nodes: map<NodeId, Node>, a: NodeId, all: seq<NodeId>): seq<NodeId>
    requires Matching(L) && a in nodes && forall i :: 0 <= i < |all| ==> all[i] in nodes
  {
    if all == [] then []
    else
      var x := all[|all| - 1];
      NextOf(L, nodes, a, all[..|all| - 1]) + if Next(L, nodes, a, x) then [x] else []
  }

  // `list` has one entry, with its ports, for each time a node next to `a` comes in `all`, in that order.
  ghost predicate Lists(L: Links, nodes: map<NodeId, Node>, all: seq<NodeId>, a: NodeId, list: seq<Adjacency>) {
    && Matching(L) && a in nodes && (forall i :: 0 <= i < |all| ==> all[i] in nodes)
    && |list| == |NextOf(L, nodes, a, all)|
    && forall i :: 0 <= i < |list| ==>
         list[i].start == a && list[i].end == NextOf(L, nodes, a, all)[i] && FirstPorts(L, nodes, list[i])
  }

  lemma MoreListed(L: Links, nodes: map<NodeId, Node>, all: seq<NodeId>, a: NodeId, list: seq<Adjacency>, x: NodeId,
                   found: Option<Adjacency>)
    requires Lists(L, nodes, all, a, list) && x in nodes
    requires found.Some? <==> Next(L, nodes, a, x)
    requires found.Some? ==> found.value.start == a && found.value.end == x && FirstPorts(L, nodes, found.value)
    ensures Lists(L, nodes, all + [x], a, if found.Some? then list + [found.value] else list)
  {
    hide Next, FirstPorts;
    assert (all + [x])[..|all|] == all;
  }

  lemma {:induction false} NextOfIn(L: Links, nodes: map<NodeId, Node>, a: NodeId, all: seq<NodeId>, b: NodeId)
    requires Matching(L) && a in nodes && forall i :: 0 <= i < |all| ==> all[i] in nodes
    ensures b in NextOf(L, nodes, a, all) <==> b in all && b in nodes && Next(L, nodes, a, b)
    decreases |all|
  {
    hide Next;
    if all != [] {
      NextOfIn(L, nodes, a, all[..|all| - 1], b);
      assert all == all[..|all| - 1] + [all[|all| - 1]];
    }
  }

  lemma ListedEnds(L: Links, nodes: map<NodeId, Node>, all: seq<NodeId>, a: NodeId, list: seq<Adjacency>, b: NodeId)
    requires Lists(L, nodes, all, a, list)
    ensures Ends(list, b) <==> b in all && b in nodes && Next(L, nodes, a, b)
  {
    hide Next, FirstPorts;
    NextOfIn(L, nodes, a, all, b);
    if b in NextOf(L, nodes, a, all) {
      var i :| 0 <= i < |list| && NextOf(L, nodes, a, all)[i] == b;
      assert list[i].end == b;
    }
  }

  // If no node comes twice in `all`, no two entries of a list lead to the same node.
  lemma {:induction false} NextOfOnce(L: Links, nodes: map<NodeId, Node>, a: NodeId, all: seq<NodeId>)
    requires Matching(L) && a in nodes && forall i :: 0 <= i < |all| ==> all[i] in nodes
    requires forall i, j :: 0 <= i < j < |all| ==> all[i] != all[j]
    ensures forall i, j :: 0 <= i < j < |NextOf(L, nodes, a, all)| ==>
              NextOf(L, nodes, a, all)[i] != NextOf(L, nodes, a, all)[j]
    decreases |all|
  {
    hide Next;
    if all != [] {
      var front, x := all[..|all| - 1], all[|all| - 1];
      NextOfOnce(L, nodes, a, front);
      NextOfIn(L, nodes, a, front, x);
    }
  }

  // Each entry names the two ports, and with distinct nodes there is one entry for each neighbour.
  lemma ListedOnce(L: Links, nodes: map<NodeId, Node>, all: seq<NodeId>, a: NodeId, list: seq<Adjacency>)
    requires Lists(L, nodes, all, a, list)
    ensures forall i :: 0 <= i < |list| ==>
              && list[i].start == a && list[i].end in all && list[i].end in nodes
              && PortsFace(L, nodes[a], list[i].startPort, nodes[list[i].end], list[i].endPort)
    ensures (forall i, j :: 0 <= i < j < |all| ==> all[i] != all[j]) ==>
              forall i, j :: 0 <= i < j < |list| ==> list[i].end != list[j].end
  {
    hide Next, PortsFace;
    forall i | 0 <= i < |list|
      ensures list[i].end in all
    {
      NextOfIn(L, nodes, a, all, list[i].end);
    }
    if forall i, j :: 0 <= i < j < |all| ==> all[i] != all[j] {
      NextOfOnce(L, nodes, a, all);
    }
  }

  // ----- Reaching -----

  ghost predicate Path(adjacent: Adjacencies, p: seq<NodeId>) {
    p != [] && forall i :: 0 <= i < |p| - 1 ==> Leads(adjacent, p[i], p[i + 1])
  }

  ghost predicate PathFrom(adjacent: Adjacencies, a: NodeId, b: NodeId, p: seq<NodeId>) {
    Path(adjacent, p) && p[0] == a && p[|p| - 1] == b
  }

  ghost predicate Reaches(adjacent: Adjacencies, a: NodeId, b: NodeId) {
    exists p :: PathFrom(adjacent, a, b, p)
  }

  lemma ReachesSelf(adjacent: Adjacencies, a: NodeId)
    ensures Reaches(adjacent, a, a)
  {
    assert PathFrom(adjacent, a, a, [a]);
  }

  lemma ReachesNext(adjacent: Adjacencies, a: NodeId, b: NodeId, c: NodeId)
    requires Reaches(adjacent, a, b) && Leads(adjacent, b, c)
    ensures Reaches(adjacent, a, c)
  {
    var p :| PathFrom(adjacent, a, b, p);
    assert PathFrom(adjacent, a, c, p + [c]);
  }

  lemma ReachesThrough(adjacent: Adjacencies, a: NodeId, b: NodeId, c: NodeId)
    requires Reaches(adjacent, a, b) && Reaches(adjacent, b, c)
    ensures Reaches(adjacent, a, c)
  {
    var p :| PathFrom(adjacent, a, b, p);
    var q :| PathFrom(adjacent, b, c, q);
    var r := p + q[1..];
    forall i | 0 <= i < |r| - 1
      ensures Leads(adjacent, r[i], r[i + 1])
    {
      if i < |p| - 1 {
      } else {
        var k := i - (|p| - 1);
        assert r[i] == q[k] && r[i + 1] == q[k + 1];
      }
    }
    assert PathFrom(adjacent, a, c, r);
  }

  ghost predicate Symmetric(adjacent: Adjacencies) {
    forall a, b :: Leads(adjacent, a, b) ==> Leads(adjacent, b, a)
  }

  lemma ReachesBack(adjacent: Adjacencies, a: NodeId, b: NodeId)
    requires Symmetric(adjacent) && Reaches(adjacent, a, b)
    ensures Reaches(adjacent, b, a)
  {
    var p :| PathFrom(adjacent, a, b, p);
    var q := seq(|p|, i requires 0 <= i < |p| => p[|p| - 1 - i]);
    forall i | 0 <= i < |q| - 1
      ensures Leads(adjacent, q[i], q[i + 1])
    {
      assert Leads(adjacent, p[|p| - 2 - i], p[|p| - 2 - i + 1]);
    }
    assert PathFrom(adjacent, b, a, q);
  }

  // What is built for a net leads back wherever it leads.
  lemma BuiltSymmetric(L: Links, nodes: map<NodeId, Node>, all: seq<NodeId>, adjacent: Adjacencies)
    requires Matching(L) && forall i :: 0 <= i < |all| ==> all[i] in nodes
    requires forall n :: n in adjacent <==> n in all
    requires forall a, b :: a in all ==> (Leads(adjacent, a, b) <==> b in all && b in nodes && Next(L, nodes, a, b))
    ensures Symmetric(adjacent)
  {
    hide Next;
    forall a, b | Leads(adjacent, a, b)
      ensures Leads(adjacent, b, a)
    {
      assert a in all && b in all;
      NextSymmetric(L, nodes, a, b);
    }
  }

  // A set that nothing leads out of holds everything that can be reached from within.
  lemma {:induction false} ClosedReaches(adjacent: Adjacencies, s: set<NodeId>, p: seq<NodeId>)
    requires forall a, b :: a in s && Leads(adjacent, a, b) ==> b in s
    requires Path(adjacent, p) && p[0] in s
    ensures p[|p| - 1] in s
    decreases |p|
  {
    if |p| > 1 {
      assert Leads(adjacent, p[0], p[0 + 1]);
      assert Path(adjacent, p[1..]) by {
        forall i | 0 <= i < |p| - 2
          ensures Leads(adjacent, p[1..][i], p[1..][i + 1])
        {
          assert Leads(adjacent, p[i + 1], p[i + 1 + 1]);
        }
      }
      ClosedReaches(adjacent, s, p[1..]);
    }
  }

  // ----- The walk -----

  ghost predicate Closed(adjacent: Adjacencies) {
    forall a, i :: a in adjacent && 0 <= i < |adjacent[a]| ==> adjacent[a][i].end in adjacent
  }

  class ConnectedNodeIter {
    const root: NodeId
    const adjacent: Adjacencies
    var occurred: set<NodeId>
    var remaining: seq<NodeId>

    constructor (root: NodeId, adjacent: Adjacencies)
      ensures this.root == root && this.adjacent == adjacent && occurred == {} && remaining == []
    {
      this.root, this.adjacent := root, adjacent;
      occurred, remaining := {}, [];
    }

    // Everything met can be reached, and whatever a node met leads to has been met or is still to be looked at.
    ghost predicate Valid()
      reads this
    {
      && root in adjacent && Closed(adjacent) && occurred <= adjacent.Keys
      && (forall n :: n in occurred || n in remaining ==> n in adjacent && Reaches(adjacent, root, n))
      && (forall a, b :: a in occurred && Leads(adjacent, a, b) ==> b in occurred || b in remaining)
    }

    // `take_node`
    method TakeNode(n: NodeId)
      requires root in adjacent && Closed(adjacent) && n in adjacent
      modifies this
      ensures occurred == old(occurred) + {n}
      ensures forall m :: m in remaining <==> m in old(remaining) || Leads(adjacent, n, m)
    {
      occurred := occurred + {n};
      var list := adjacent[n];
      for i := 0 to |list|
        invariant occurred == old(occurred) + {n}
        invariant forall m :: m in remaining <==> m in old(remaining) || exists k :: 0 <= k < i && list[k].end == m
      {
        remaining := remaining + [list[i].end];
      }
    }

    lemma Taken(n: NodeId, occurred0: set<NodeId>, remaining0: seq<NodeId>)
      requires root in adjacent && Closed(adjacent) && n in adjacent && occurred0 <= adjacent.Keys
      requires Reaches(adjacent, root, n)
      requires forall m :: m in occurred0 || m in remaining0 ==> m in adjacent && Reaches(adjacent, root, m)
      requires forall a, b :: a in occurred0 && Leads(adjacent, a, b) ==> b in occurred0 || b in remaining0 || b == n
      requires occurred == occurred0 + {n}
      requires forall m :: m in remaining <==> m in remaining0 || Leads(adjacent, n, m)
      ensures Valid()
    {
      hide Reaches;
      forall m | m in occurred || m in remaining
        ensures m in adjacent && Reaches(adjacent, root, m)
      {
        if m != n && m !in occurred0 && m !in remaining0 {
          ReachesNext(adjacent, root, n, m);
        }
      }
    }

    // `connected_node_iter_first`
    method First() returns (n: NodeId)
      requires root in adjacent && Closed(adjacent) && occurred == {} && remaining == []
      modifies this
      ensures Valid() && n == root && occurred == {root}
    {
      ReachesSelf(adjacent, root);
      TakeNode(root);
      Taken(root, {}, []);
      return root;
    }

    // `connected_node_iter_next`
    method Next() returns (n: Option<NodeId>)
      requires Valid()
      modifies this
      ensures Valid()
      ensures n.Some? ==> n.value !in old(occurred) && occurred == old(occurred) + {n.value}
      ensures n.None? ==> occurred == old(occurred) && remaining == []
      decreases |remaining|
    {
      if remaining == [] {
        return None;
      }
      var last := remaining[|remaining| - 1];
      ghost var before := remaining;
      remaining := remaining[..|remaining| - 1];
      assert before == remaining + [last];
      assert last in before;
      if last in occurred {
        n := Next();
        return;
      }
      ghost var occurred0, remaining0 := occurred, remaining;
      TakeNode(last);
      Taken(last, occurred0, remaining0);
      return Some(last);
    }
  }

  // `connected_node_array`: exactly what can be reached from the root, each node once, the root first.
  method ConnectedNodes(root: NodeId, adjacent: Adjacencies) returns (nodes: seq<NodeId>)
    requires root in adjacent && Closed(adjacent)
    ensures nodes != [] && nodes[0] == root
    ensures forall i, j :: 0 <= i < j < |nodes| ==> nodes[i] != nodes[j]
    ensures forall n :: n in nodes <==> Reaches(adjacent, root, n)
  {
    hide Reaches, Leads;
    var iter := new ConnectedNodeIter(root, adjacent);
    var first := iter.First();
    nodes := [first];
    var more := true;
    while more
      invariant fresh(iter) && iter.Valid() && iter.root == root && iter.adjacent == adjacent
      invariant nodes != [] && nodes[0] == root && (forall n :: n in nodes <==> n in iter.occurred)
      invariant forall i, j :: 0 <= i < j < |nodes| ==> nodes[i] != nodes[j]
      invariant !more ==> iter.remaining == []
      decreases adjacent.Keys - iter.occurred, more
    {
      var next := iter.Next();
      if next.Some? {
        nodes := nodes + [next.value];
      } else {
        more := false;
      }
    }
    ReachedAll(root, adjacent, iter.occurred);
  }

  lemma ReachedAll(root: NodeId, adjacent: Adjacencies, s: set<NodeId>)
    requires root in s && forall n :: n in s ==> Reaches(adjacent, root, n)
    requires forall a, b :: a in s && Leads(adjacent, a, b) ==> b in s
    ensures forall n :: n in s <==> Reaches(adjacent, root, n)
  {
    forall n | Reaches(adjacent, root, n)
      ensures n in s
    {
      var p :| PathFrom(adjacent, root, n, p);
      ClosedReaches(adjacent, s, p);
    }
  }

  // Every node of a component has the same component.
  lemma SameComponent(adjacent: Adjacencies, a: NodeId, b: NodeId, c: NodeId)
    requires Symmetric(adjacent) && Reaches(adjacent, a, b)
    ensures Reaches(adjacent, a, c) <==> Reaches(adjacent, b, c)
  {
    hide Reaches;
    ReachesBack(adjacent, a, b);
    if Reaches(adjacent, a, c) {
      ReachesThrough(adjacent, b, a, c);
    }
    if Reaches(adjacent, b, c) {
      ReachesThrough(adjacent, a, b, c);
    }
  }

  // From every node of one component of a net the walk comes across the same nodes.
  method Component(store: Store, nodes: map<NodeId, Node>, all: seq<NodeId>, a: NodeId, b: NodeId)
    returns (fromA: seq<NodeId>, fromB: seq<NodeId>)
    requires Standing(store, nodes) && (forall i :: 0 <= i < |all| ==> all[i] in nodes) && a in all && b in all
    ensures b in fromA <==> a in fromB
    ensures b in fromA ==> forall n :: n in fromA <==> n in fromB
  {
    hide Next, Reaches, Symmetric, Standing;
    var adjacent := BuildAdjacencies(store, nodes, all);
    BuiltSymmetric(store.links, nodes, all, adjacent);
    BuiltClosed(adjacent, all);
    fromA := ConnectedNodes(a, adjacent);
    fromB := ConnectedNodes(b, adjacent);
    if Reaches(adjacent, a, b) {
      forall n
        ensures Reaches(adjacent, a, n) <==> Reaches(adjacent, b, n)
      {
        SameComponent(adjacent, a, b, n);
      }
      ReachesBack(adjacent, a, b);
    }
    if Reaches(adjacent, b, a) {
      ReachesBack(adjacent, b, a);
    }
  }

  lemma BuiltClosed(adjacent: Adjacencies, all: seq<NodeId>)
    requires forall n :: n in adjacent <==> n in all
    requires forall a, b :: Leads(adjacent, a, b) ==> b in all
    ensures Closed(adjacent)
  {
    forall a, i | a in adjacent && 0 <= i < |adjacent[a]|
      ensures adjacent[a][i].end in adjacent
    {
      assert Leads(adjacent, a, adjacent[a][i].end);
    }
  }
}
