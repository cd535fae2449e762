/**
 Arithmetic by any number of workers at once.
 */
module NatParallel {
  import opened Links
  import opened Script
  import opened Machine
  import opened Net
  import opened Confluence
  import opened Heap
  import opened NatEffects
  import opened NatSystem
  import opened NatArith
  import opened NatTrees
  import opened NatPrograms
  import opened Parallel
  import opened ParallelRuns
  import Crew

  // The same pairing of fused wires shows the same number.
  lemma {:induction false} NumberFused(net: Net, x: End, k: nat, F: set<NodeId>, M: Links)
    requires Number(net, x, k, F) && SamePairing(net.links, M)
    ensures Number(net.(links := M), x, k, F)
    decreases k
  {
    hide Partner, Matching;
    if k > 0 {
      var n := Partner(net.links, x).node;
      NumberFused(net, net.nodes[n].slots[0], k - 1, F - {n}, M);
    }
  }

  // What the expression makes a worker do.
  function ScriptOf(e: Expr): seq<Action> {
    var o := Run(Program(), 0, Postfix(e), map[], World({}, 0, [], []));
    if o.Done? then o.world.script else []
  }

  // However many workers share the work, and in whatever order they get to it, the value of the expression is
  // what is left, fused into wires that nobody is working on any more.
  lemma ParallelExpression(e: Expr, net: Net, x: End, count: nat, moves: seq<Move>, s: Shared) returns (fused: Links)
    requires Builds(e, net, x) && count > 0 && Runs(Nats(), Begun(ScriptOf(e), count), moves, s) && AtEnd(s)
    ensures !s.fault && StoredOnce(s.cells, fused) && NothingElse(s.cells, fused)
    ensures IsNumber(Net(s.nodes, fused, {}, {}), x, NatTrees.Value(e))
  {
    hide Program, Nats, Finished, Handles, Runs, Begun, AtEnd, StoredOnce, NothingElse, SamePairing, WellFormed;
    var tasks, last := ProgramEvaluates(e, net, x);
    NatsGood();
    var handled: seq<Task>;
    handled, fused := ParallelIsSequential(Nats(), ScriptOf(e), count, moves, s, tasks, last);
    NumberShown(last, x, NatTrees.Value(e), fused);
    OnlyNodes(last.(links := fused), Net(s.nodes, fused, {}, {}), x, NatTrees.Value(e));
  }

  // The same for threads with deques and a counter: the value is there when all of them have left.
  lemma CrewExpression(e: Expr, net: Net, x: End, count: nat, before: seq<Move>, c: Crew.Crew, steps: seq<Crew.Step>,
                       last: Crew.Crew)
    returns (fused: Links)
    requires Builds(e, net, x) && count > 0 && Runs(Nats(), Begun(ScriptOf(e), count), before, c.shared)
    requires Crew.Prepared(c) && Crew.CrewRuns(Nats(), c, steps, last)
    requires forall w :: 0 <= w < |last.pool.phases| ==> last.pool.phases[w].Gone?
    ensures !last.shared.fault && StoredOnce(last.shared.cells, fused) && NothingElse(last.shared.cells, fused)
    ensures IsNumber(Net(last.shared.nodes, fused, {}, {}), x, NatTrees.Value(e))
  {
    hide Program, Nats, Finished, Handles, Runs, Begun, AtEnd, StoredOnce, NothingElse, SamePairing, WellFormed;
    hide Crew.CrewRuns, Crew.Prepared;
    var tasks, end := ProgramEvaluates(e, net, x);
    NatsGood();
    var moves := Crew.CrewEnds(Nats(), ScriptOf(e), count, before, c, steps, last);
    fused := ParallelExpression(e, net, x, count, moves, last.shared);
  }

  lemma NumberShown(net: Net, x: End, k: nat, M: Links)
    requires IsNumber(net, x, k) && SamePairing(net.links, M)
    ensures IsNumber(net.(links := M), x, k)
  {
    hide SamePairing, Number;
    if x.WireEnd? {
      NumberFused(net, x, k, net.nodes.Keys, M);
    } else if k > 0 {
      NumberFused(net, net.nodes[x.node].slots[0], k - 1, net.nodes.Keys - {x.node}, M);
    }
  }

  // Which wires and which dead nodes there were does not matter.
  lemma {:induction false} NumberOnly(net: Net, net': Net, x: End, k: nat, F: set<NodeId>)
    requires Number(net, x, k, F) && net'.nodes == net.nodes && net'.links == net.links
    ensures Number(net', x, k, F)
    decreases k
  {
    hide Partner, Matching, Outer;
    if k > 0 {
      var n := Partner(net.links, x).node;
      NumberOnly(net, net', net.nodes[n].slots[0], k - 1, F - {n});
    }
  }

  lemma OnlyNodes(net: Net, net': Net, x: End, k: nat)
    requires IsNumber(net, x, k) && net'.nodes == net.nodes && net'.links == net.links
    ensures IsNumber(net', x, k)
  {
    hide Number;
    if x.WireEnd? {
      NumberOnly(net, net', x, k, net.nodes.Keys);
    } else if k > 0 {
      NumberOnly(net, net', net.nodes[x.node].slots[0], k - 1, net.nodes.Keys - {x.node});
    }
  }
}
