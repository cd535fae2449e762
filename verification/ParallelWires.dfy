/**
 What becomes of every wire that is made.
 */
module ParallelWires {
  import opened Links
  import opened Script
  import opened Machine
  import opened Net
  import opened Heap
  import opened Parallel
  import opened ParallelOk
  import opened Confluence
  import opened Race
  import opened ParallelWork
  import opened ParallelRuns

  // The wire a move makes.
  function Makes(s: Shared, m: Move): set<Wire> {
    if m.GoMove? && m.worker < |s.workers| && s.workers[m.worker].Building? && Acts(s.workers[m.worker])
    then {s.workers[m.worker].script[0].wire} else {}
  }

  predicate Acts(w: Worker)
    requires w.Building?
  {
    w.pending.Quiet? && (w.found == {} || w.open.Some?) && w.script != [] && w.script[0].NewWire?
  }

  ghost function Created(sys: System, s: Shared, moves: seq<Move>): set<Wire>
    decreases |moves|
  {
    if moves == [] || !Possible(s, moves[0]) then {}
    else Makes(s, moves[0]) + Created(sys, Do(sys, s, moves[0]), moves[1..])
  }

  // In use, freed, or in the hands of the worker that is about to free it.
  ghost predicate Accounted(s: Shared, x: Wire) {
    x in s.cells || x in s.freed || exists t :: 0 <= t < |s.workers| && Doomed(s.workers[t], x)
  }

  // As far as one worker goes.
  predicate Local(s: Shared, t: nat, x: Wire) {
    x in s.cells || x in s.freed || (t < |s.workers| && Doomed(s.workers[t], x))
  }

  predicate Only(s: Shared, s': Shared, t: nat) {
    t < |s.workers| == |s'.workers| && s'.workers == s.workers[t := s'.workers[t]]
  }

  lemma FromLocal(s: Shared, s': Shared, t: nat, x: Wire, made: set<Wire>)
    requires Only(s, s', t) && (Local(s', t, x) <==> Local(s, t, x) || x in made)
    ensures Accounted(s', x) <==> Accounted(s, x) || x in made
  {
    if u :| 0 <= u < |s.workers| && u != t && Doomed(s.workers[u], x) {
      assert Doomed(s'.workers[u], x);
    }
    if u :| 0 <= u < |s'.workers| && u != t && Doomed(s'.workers[u], x) {
      assert Doomed(s.workers[u], x);
    }
  }

  lemma ActWires(s: Shared, t: nat, x: Wire)
    requires t < |s.workers| && s.workers[t].Building? && s.workers[t].script != [] && s.workers[t].pending.Quiet?
    requires !Act(s, t).fault
    ensures Only(s, Act(s, t), t)
    ensures Local(Act(s, t), t, x)
       <==> Local(s, t, x) || (s.workers[t].script[0].NewWire? && x == s.workers[t].script[0].wire)
  {
    hide Act;
    ActParts(s, t);
  }

  lemma ActParts(s: Shared, t: nat)
    requires t < |s.workers| && s.workers[t].Building? && s.workers[t].script != [] && s.workers[t].pending.Quiet?
    requires !Act(s, t).fault
    ensures var s', a := Act(s, t), s.workers[t].script[0];
            && Only(s, s', t) && s'.workers[t].Building? && !s'.workers[t].pending.Freeing? && s'.freed == s.freed
            && s'.cells == if a.NewWire? then s.cells[a.wire := None] else s.cells
  {
  }

  lemma ExchangeWires(s: Shared, t: nat, e: End, value: End, x: Wire)
    requires t < |s.workers| && s.workers[t].Building? && s.workers[t].pending.Connecting? && e.WireEnd?
    requires !Exchange(s, t, e, value).fault
    ensures Only(s, Exchange(s, t, e, value), t)
    ensures Local(Exchange(s, t, e, value), t, x) <==> Local(s, t, x)
  {
  }

  lemma MeetWires(sys: System, s: Shared, t: nat, l: End, r: End, x: Wire)
    requires t < |s.workers| && s.workers[t].Building? && s.workers[t].pending.Connecting?
    requires l.Principal? && r.Principal?
    requires !Parallel.Meet(sys, s, t, l, r).fault
    ensures Only(s, Parallel.Meet(sys, s, t, l, r), t)
    ensures Local(Parallel.Meet(sys, s, t, l, r), t, x) <==> Local(s, t, x)
  {
    hide TaskFor, Ctors;
  }

  lemma FreeWires(s: Shared, t: nat, x: Wire)
    requires t < |s.workers| && s.workers[t].Building? && s.workers[t].pending.Freeing?
    requires var p := s.workers[t].pending; !Free(s, t, p.wire, p.left, p.right).fault
    ensures var p := s.workers[t].pending;
            && Only(s, Free(s, t, p.wire, p.left, p.right), t)
            && (Local(Free(s, t, p.wire, p.left, p.right), t, x) <==> Local(s, t, x))
            && p.wire in Free(s, t, p.wire, p.left, p.right).freed
  {
  }

  lemma ContinueWires(sys: System, s: Shared, t: nat, x: Wire)
    requires t < |s.workers| && s.workers[t].Building? && !Continue(sys, s, t).fault
    ensures Only(s, Continue(sys, s, t), t)
    ensures Local(Continue(sys, s, t), t, x) <==> Local(s, t, x) || x in Makes(s, GoMove(t))
  {
    hide Act, Exchange, Parallel.Meet, Free, Local, Only;
    match s.workers[t].pending
    case Connecting(l, r) =>
      if l.Principal? && r.Principal? {
        MeetWires(sys, s, t, l, r, x);
      } else if l.WireEnd? {
        ExchangeWires(s, t, l, r, x);
      } else {
        ExchangeWires(s, t, r, l, x);
      }
    case Freeing(_, _, _) => FreeWires(s, t, x);
    case Quiet =>
      if s.workers[t].found != {} && s.workers[t].open.None? {
        PublishWires(s, t, x);
      } else if s.workers[t].script == [] {
        StopWires(s, t, x);
      } else {
        ActWires(s, t, x);
      }
  }

  lemma PublishWires(s: Shared, t: nat, x: Wire)
    requires t < |s.workers| && s.workers[t].Building? && s.workers[t].pending.Quiet?
    ensures Only(s, Publish(s, t), t) && (Local(Publish(s, t), t, x) <==> Local(s, t, x))
  {
  }

  lemma StopWires(s: Shared, t: nat, x: Wire)
    requires t < |s.workers| && s.workers[t].Building? && s.workers[t].pending.Quiet?
    ensures Only(s, Set(s, t, Idle), t) && (Local(Set(s, t, Idle), t, x) <==> Local(s, t, x))
  {
  }

  lemma ReadingWires(sys: System, s: Shared, t: nat, x: Wire)
    requires t < |s.workers| && s.workers[t].Reading?
    requires !(if s.workers[t].locked then Read(sys, s, t) else LockNode(s, t)).fault
    ensures var s' := if s.workers[t].locked then Read(sys, s, t) else LockNode(s, t);
            Only(s, s', t) && (Local(s', t, x) <==> Local(s, t, x))
  {
    hide BodyScript;
  }

  lemma MoveWires(sys: System, s: Shared, m: Move, x: Wire)
    requires Possible(s, m) && !Do(sys, s, m).fault
    ensures Accounted(Do(sys, s, m), x) <==> Accounted(s, x) || x in Makes(s, m)
  {
    hide Continue, Read, LockNode, Accounted, Local;
    match m
    case TakeMove(t, f) =>
      TakeWires(s, t, f, x);
      FromLocal(s, Do(sys, s, m), t, x, {});
    case GoMove(t) =>
      if s.workers[t].Building? {
        ContinueWires(sys, s, t, x);
        FromLocal(s, Do(sys, s, m), t, x, Makes(s, m));
      } else {
        ReadingWires(sys, s, t, x);
        FromLocal(s, Do(sys, s, m), t, x, {});
      }
  }

  lemma TakeWires(s: Shared, t: nat, f: Found, x: Wire)
    requires CanTake(s, t, f)
    ensures Only(s, Take(s, t, f), t) && (Local(Take(s, t, f), t, x) <==> Local(s, t, x))
  {
  }

  lemma {:induction false} RunWires(sys: System, held: set<End>, s: Shared, v: View, moves: seq<Move>, last: Shared,
                                    x: Wire)
    requires Ok(sys, held, s, v) && Runs(sys, s, moves, last)
    ensures Accounted(last, x) <==> Accounted(s, x) || x in Created(sys, s, moves)
    decreases |moves|
  {
    hide Ok, Do, Possible, Accounted, Makes, Work, TotalWeight, Handles;
    if moves != [] {
      var v1, tasks := MoveKeeps(sys, held, s, v, moves[0]);
      NoFault(sys, held, Do(sys, s, moves[0]), v1);
      MoveWires(sys, s, moves[0], x);
      RunWires(sys, held, Do(sys, s, moves[0]), v1, moves[1..], last, x);
    }
  }

  lemma WiresApart(sys: System, held: set<End>, s: Shared, v: View)
    requires Ok(sys, held, s, v)
    ensures s.cells.Keys !! s.freed
    ensures forall t, x {:trigger Doomed(s.workers[t], x)} :: 0 <= t < |s.workers| && Doomed(s.workers[t], x) ==>
              x !in s.cells && x !in s.freed
    ensures forall t, u, x {:trigger Doomed(s.workers[t], x), Doomed(s.workers[u], x)} ::
              0 <= t < |s.workers| && 0 <= u < |s.workers| && Doomed(s.workers[t], x) && Doomed(s.workers[u], x)
              ==> t == u
  {
    hide NetOk, Sound, NodesOk, LocksOk, NamesOk, SlotsLive, Alive, AllWorkersOk, HoldersOk, ClaimsOk;
  }

  // In every state of every run each wire made so far is in exactly one of three places: in use, about to be freed by
  // one worker, or freed; and no other wire is anywhere.
  lemma WiresAccounted(sys: System, script: seq<Action>, count: nat, moves: seq<Move>, s: Shared, x: Wire)
    requires GoodSystem(sys) && Runnable(script) && count > 0 && Runs(sys, Begun(script, count), moves, s)
    ensures x in Created(sys, Begun(script, count), moves) <==> Accounted(s, x)
    ensures !(x in s.cells && x in s.freed)
    ensures forall t :: 0 <= t < |s.workers| && Doomed(s.workers[t], x) ==> x !in s.cells && x !in s.freed
    ensures forall t, u :: 0 <= t < u < |s.workers| ==> !(Doomed(s.workers[t], x) && Doomed(s.workers[u], x))
  {
    hide Ok, Runs, GoodSystem, Runnable, Accounted;
    RunnableAllowed(script);
    BegunOk(sys, script, count);
    RunWires(sys, BuildOf(script).free, Begun(script, count), FirstView(script, count), moves, s, x);
    NothingFirst(script, count, x);
    var held, v, tasks := ParallelRuns.Reached(sys, script, count, moves, s);
    WiresApart(sys, held, s, v);
    assert s.cells.Keys !! s.freed && (x in s.cells ==> x in s.cells.Keys);
  }

  lemma NothingFirst(script: seq<Action>, count: nat, x: Wire)
    requires count > 0
    ensures !Accounted(Begun(script, count), x)
  {
    var s := Begun(script, count);
    forall t | 0 <= t < |s.workers|
      ensures !Doomed(s.workers[t], x)
    {
      assert t > 0 ==> s.workers[t] == Idle;
    }
  }

  // When nobody has anything left to do, what is not freed is in use.
  lemma WiresAtEnd(sys: System, script: seq<Action>, count: nat, moves: seq<Move>, s: Shared)
    requires GoodSystem(sys) && Runnable(script) && count > 0 && Runs(sys, Begun(script, count), moves, s) && AtEnd(s)
    ensures Created(sys, Begun(script, count), moves) == s.cells.Keys + s.freed && s.cells.Keys !! s.freed
  {
    hide Runs, GoodSystem, Runnable, Created, Begun;
    forall x
      ensures x in Created(sys, Begun(script, count), moves) <==> x in s.cells.Keys + s.freed
      ensures !(x in s.cells.Keys && x in s.freed)
    {
      WiresAccounted(sys, script, count, moves, s, x);
      forall t | 0 <= t < |s.workers|
        ensures !Doomed(s.workers[t], x)
      {
        assert s.workers[t] in s.workers;
      }
    }
  }
}
