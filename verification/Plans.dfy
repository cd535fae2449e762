/**
 What a worker in the middle of a body is still going to do.
 */
module Plans {
  import opened Links
  import opened Script

  // The pairs of ends the script is going to connect.
  function Joins(script: seq<Action>): Links
    decreases |script|
  {
    if script == [] then map[]
    else if script[0].Join? then Link(Joins(script[1..]), script[0].left, script[0].right)
    else Joins(script[1..])
  }

  // Not finished, or not even begun.
  predicate Unfinished(b: Build, n: NodeId) {
    n in b.open || n !in b.nodes
  }

  ghost predicate Doing(b: Build, ins: set<End>, script: seq<Action>) {
    Held(b, ins) && AllAllowed(b, script)
  }

  lemma DoingNext(b: Build, ins: set<End>, script: seq<Action>)
    requires Doing(b, ins, script) && script != []
    ensures Allowed(b, script[0]) && Doing(Perform(b, script[0]), ins, script[1..])
    ensures PerformAll(b, script) == PerformAll(Perform(b, script[0]), script[1..])
    ensures Perform(b, script[0]).makers == b.makers && Perform(b, script[0]).next >= b.next
  {
    hide Held;
    PerformHeld(b, ins, script[0]);
  }

  lemma {:induction false} JoinsFinal(b: Build, ins: set<End>, script: seq<Action>)
    requires Doing(b, ins, script)
    ensures Matching(Joins(script)) && Joins(script).Keys !! b.links.Keys
    ensures PerformAll(b, script).links == b.links + Joins(script)
    decreases |script|
  {
    hide Doing, Held, Matching;
    if script == [] {
      EmptyMatching();
    } else {
      DoingNext(b, ins, script);
      JoinsFinal(Perform(b, script[0]), ins, script[1..]);
      if script[0].Join? {
        DoingHeld(b, ins, script);
        JoinFinal(b, script[0].left, script[0].right, Joins(script[1..]));
      }
    }
  }

  lemma EmptyMatching()
    ensures Matching(map[])
  {
  }

  lemma DoingHeld(b: Build, ins: set<End>, script: seq<Action>)
    requires Doing(b, ins, script)
    ensures Held(b, ins) && Matching(b.links) && forall e :: e in b.free ==> e !in b.links
  {
  }

  lemma JoinFinal(b: Build, l: End, r: End, rest: Links)
    requires Allowed(b, Join(l, r)) && l !in b.links && r !in b.links
    requires Matching(rest) && rest.Keys !! Link(b.links, l, r).Keys
    ensures Matching(Link(rest, l, r)) && Link(rest, l, r).Keys !! b.links.Keys
    ensures Link(b.links, l, r) + rest == b.links + Link(rest, l, r)
  {
    assert l in Link(b.links, l, r).Keys && r in Link(b.links, l, r).Keys;
    LinkMatching(rest, l, r);
  }

  // The pair joined first is not joined again.
  lemma JoinOnce(b: Build, ins: set<End>, script: seq<Action>)
    requires Doing(b, ins, script) && script != [] && script[0].Join?
    ensures var l, r, rest := script[0].left, script[0].right, Joins(script[1..]);
            l != r && l !in rest && r !in rest && Joins(script) == Link(rest, l, r)
  {
    hide Held, Matching;
    DoingNext(b, ins, script);
    JoinsFinal(Perform(b, script[0]), ins, script[1..]);
    var c := Perform(b, script[0]);
    assert script[0].left in c.links.Keys && script[0].right in c.links.Keys;
  }

  // ----- Nodes -----

  // `n` looks later as it does now, with more slots filled if it is being built.
  ghost predicate Later(b: Build, c: Build, n: NodeId)
    requires n in b.nodes
  {
    && n in c.nodes && c.nodes[n].ctor == b.nodes[n].ctor
    && (forall i :: i in b.nodes[n].slots ==> i in c.nodes[n].slots && c.nodes[n].slots[i] == b.nodes[n].slots[i])
    && (n !in b.open ==> c.nodes[n] == b.nodes[n] && n !in c.open)
  }

  lemma PerformLater(b: Build, ins: set<End>, a: Action, n: NodeId)
    requires Held(b, ins) && Allowed(b, a) && n in b.nodes
    ensures Later(b, Perform(b, a), n)
  {
    hide Apart, Covered;
  }

  lemma LaterTransitive(b: Build, c: Build, d: Build, n: NodeId)
    requires n in b.nodes && Later(b, c, n) && Later(c, d, n)
    ensures Later(b, d, n)
  {
  }

  lemma {:induction false} AllLater(b: Build, ins: set<End>, script: seq<Action>, n: NodeId)
    requires Doing(b, ins, script) && n in b.nodes
    ensures Later(b, PerformAll(b, script), n)
    decreases |script|
  {
    hide Later, Held;
    if script != [] {
      DoingNext(b, ins, script);
      PerformLater(b, ins, script[0], n);
      LaterIn(b, Perform(b, script[0]), n);
      AllLater(Perform(b, script[0]), ins, script[1..], n);
      LaterTransitive(b, Perform(b, script[0]), PerformAll(b, script), n);
    } else {
      LaterSelf(b, n);
    }
  }

  lemma LaterIn(b: Build, c: Build, n: NodeId)
    requires n in b.nodes && Later(b, c, n)
    ensures n in c.nodes
  {
  }

  lemma LaterSelf(b: Build, n: NodeId)
    requires n in b.nodes
    ensures Later(b, b, n)
  {
  }

  // ----- Where an end in hand goes -----

  ghost predicate GoesIntoSlot(b: Build, final: Build, e: End) {
    e.WireEnd? && exists n, i ::
      n in final.nodes && Unfinished(b, n) && i in final.nodes[n].slots && final.nodes[n].slots[i] == e
  }

  lemma UnfinishedBefore(b: Build, ins: set<End>, a: Action, n: NodeId)
    requires Held(b, ins) && Allowed(b, a) && Unfinished(Perform(b, a), n)
    ensures Unfinished(b, n)
  {
    hide Apart, Covered;
  }

  lemma GoesBefore(b: Build, ins: set<End>, a: Action, final: Build, e: End)
    requires Held(b, ins) && Allowed(b, a) && GoesIntoSlot(Perform(b, a), final, e)
    ensures GoesIntoSlot(b, final, e)
  {
    hide Held;
    var n, i :| n in final.nodes && Unfinished(Perform(b, a), n) && i in final.nodes[n].slots
                && final.nodes[n].slots[i] == e;
    UnfinishedBefore(b, ins, a, n);
  }

  // It is connected, or put into a slot of a node not finished yet, or still in hand at the end.
  lemma {:induction false} Fate(b: Build, ins: set<End>, script: seq<Action>, e: End)
    requires Doing(b, ins, script) && e in b.free
    ensures || e in Joins(script)
            || e in PerformAll(b, script).free
            || GoesIntoSlot(b, PerformAll(b, script), e)
    decreases |script|
  {
    hide Held, GoesIntoSlot, Later;
    if script != [] {
      DoingNext(b, ins, script);
      var c := Perform(b, script[0]);
      if e in c.free {
        Fate(c, ins, script[1..], e);
        if GoesIntoSlot(c, PerformAll(b, script), e) {
          GoesBefore(b, ins, script[0], PerformAll(b, script), e);
        }
      } else if script[0].Fill? {
        FillFate(b, ins, script, e);
      }
    }
  }

  lemma FillFate(b: Build, ins: set<End>, script: seq<Action>, e: End)
    requires Doing(b, ins, script) && script != [] && script[0].Fill? && e in b.free && e !in Perform(b, script[0]).free
    ensures GoesIntoSlot(b, PerformAll(b, script), e)
  {
    hide Held;
    DoingNext(b, ins, script);
    var c, n := Perform(b, script[0]), script[0].node;
    assert c.nodes[n].slots[script[0].index] == e;
    AllLater(c, ins, script[1..], n);
  }

  // A node that the rest of the script begins: its principal port will be connected or stay in hand.
  lemma {:induction false} NewNodeFate(b: Build, ins: set<End>, script: seq<Action>, n: NodeId)
    requires Doing(b, ins, script) && n in PerformAll(b, script).nodes && n !in b.nodes
    ensures Principal(n) in Joins(script) || Principal(n) in PerformAll(b, script).free
    ensures n.makers == b.makers && n.k >= b.next
    decreases |script|
  {
    hide Held, GoesIntoSlot, Later;
    assert script != [];
    DoingNext(b, ins, script);
    var c := Perform(b, script[0]);
    if n in c.nodes {
      assert script[0].Begin? && script[0].node == n;
      Fate(c, ins, script[1..], Principal(n));
      assert !GoesIntoSlot(c, PerformAll(b, script), Principal(n)) by {
        NotIntoSlot(c, PerformAll(b, script), n);
      }
    } else {
      NewNodeFate(c, ins, script[1..], n);
    }
  }

  lemma NotIntoSlot(b: Build, final: Build, n: NodeId)
    ensures !GoesIntoSlot(b, final, Principal(n))
  {
  }

  // ----- Slots still to be filled -----

  // Whatever the script is going to put into a slot, the slot is empty now and holds it in the end.
  lemma {:induction false} FillFinal(b: Build, ins: set<End>, script: seq<Action>, n: NodeId, i: nat, e: End)
    requires Doing(b, ins, script) && Fill(n, i, e) in script
    ensures var final := PerformAll(b, script);
            n in final.nodes && i in final.nodes[n].slots && final.nodes[n].slots[i] == e
    ensures Unfinished(b, n) && (n in b.nodes ==> i !in b.nodes[n].slots)
    decreases |script|
  {
    hide Held, Later;
    DoingNext(b, ins, script);
    var c := Perform(b, script[0]);
    if script[0] == Fill(n, i, e) {
      AllLater(c, ins, script[1..], n);
      LaterSlot(c, PerformAll(b, script), n, i);
    } else {
      FillFinal(c, ins, script[1..], n, i, e);
      EmptyBefore(b, ins, script[0], n, i);
    }
  }

  lemma LaterSlot(b: Build, c: Build, n: NodeId, i: nat)
    requires n in b.nodes && Later(b, c, n) && i in b.nodes[n].slots
    ensures n in c.nodes && i in c.nodes[n].slots && c.nodes[n].slots[i] == b.nodes[n].slots[i]
  {
  }

  lemma EmptyBefore(b: Build, ins: set<End>, a: Action, n: NodeId, i: nat)
    requires Held(b, ins) && Allowed(b, a) && Unfinished(Perform(b, a), n)
    requires n in Perform(b, a).nodes ==> i !in Perform(b, a).nodes[n].slots
    ensures Unfinished(b, n) && (n in b.nodes ==> i !in b.nodes[n].slots)
  {
    hide Held;
    UnfinishedBefore(b, ins, a, n);
    if n in b.nodes {
      PerformLater(b, ins, a, n);
    }
  }

  // And what is missing in a node is filled later.
  lemma {:induction false} FillComes(b: Build, ins: set<End>, script: seq<Action>, n: NodeId, i: nat)
    requires Doing(b, ins, script)
    requires n in PerformAll(b, script).nodes && i in PerformAll(b, script).nodes[n].slots
    requires n in b.nodes ==> i !in b.nodes[n].slots
    ensures Fill(n, i, PerformAll(b, script).nodes[n].slots[i]) in script
    decreases |script|
  {
    hide Held, Later;
    assert script != [];
    DoingNext(b, ins, script);
    var c := Perform(b, script[0]);
    if n in c.nodes && i in c.nodes[n].slots {
      assert script[0].Fill? && script[0].node == n && script[0].index == i;
      AllLater(c, ins, script[1..], n);
      LaterSlot(c, PerformAll(b, script), n, i);
    } else {
      FillComes(c, ins, script[1..], n, i);
    }
  }
}
