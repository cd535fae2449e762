/**
 What a run has left is at rest, so one can walk through it.
 */
module Aftermath {
  import opened Links
  import opened Script
  import opened Machine
  import opened Net
  import opened Confluence
  import opened Loader
  import opened Heap
  import opened Parallel
  import opened ParallelRuns
  import Traversal

  // Who has met whom, of the nodes that are there.
  function OppositesOf(nodes: map<NodeId, Ctor>, L: Links): map<NodeId, NodeId> {
    map n | n in nodes && Principal(n) in L && L[Principal(n)].Principal? :: L[Principal(n)].node
  }

  // When nobody has anything left to do, cells and nodes are as they are between two calls of `connect`.
  lemma LeftAtRest(sys: System, script: seq<Action>, count: nat, moves: seq<Move>, s: Shared)
    returns (handled: seq<Task>, last: Net, fused: Links)
    requires GoodSystem(sys) && Runnable(script) && count > 0
    requires Runs(sys, Begun(script, count), moves, s) && AtEnd(s)
    ensures Handles(sys, NetOf(script), handled, last) && Finished(sys, last) && s.nodes == last.nodes
    ensures SamePairing(last.links, fused)
    ensures AtRest(s.cells, Ctors(s.nodes), OppositesOf(Ctors(s.nodes), fused), fused)
    ensures SlotsRest(s, fused) && forall n :: n in s.nodes ==> s.nodes[n].Complete()
  {
    hide *;
    handled, last, fused := ParallelResult(sys, script, count, moves, s);
    PairedMatching(last.links, fused);
    Rests(s.cells, Ctors(s.nodes), fused);
  }

  lemma PairedMatching(L: Links, M: Links)
    requires SamePairing(L, M)
    ensures Matching(M)
  {
  }

  lemma Rests(cells: Cells, nodes: map<NodeId, Ctor>, L: Links)
    requires Matching(L) && StoredOnce(cells, L) && NothingElse(cells, L) && AllLive(cells, nodes, L)
    ensures AtRest(cells, nodes, OppositesOf(nodes, L), L)
  {
    hide Matching, StoredOnce, NothingElse, AllLive;
  }

  // So one can walk through it.
  method Remains(mod: Mod, s: Shared, opposite: map<NodeId, NodeId>, ghost fused: Links) returns (store: Store)
    requires mod.Valid() && AtRest(s.cells, Ctors(s.nodes), opposite, fused)
    requires SlotsRest(s, fused) && forall n :: n in s.nodes ==> s.nodes[n].Complete()
    ensures fresh(store) && Traversal.Standing(store, s.nodes)
    ensures store.links == fused && store.cells == s.cells && store.nodes == Ctors(s.nodes)
  {
    hide AtRest;
    store := new Store.Of(mod, s.cells, Ctors(s.nodes), opposite, fused);
  }

  // Two ports face each other in what is left exactly when they do in the net of the sequential run.
  lemma FacesLeft(last: Net, fused: Links, x: End, y: End)
    requires SamePairing(last.links, fused) && x.WireEnd? && y.WireEnd? && x !in last.links && y !in last.links
    ensures Faces(fused, x, y) <==> Faces(last.links, x, y)
  {
    assert fused.Keys <= last.links.Keys;
    assert Outer(last.links, x) && Outer(last.links, y);
  }
}
