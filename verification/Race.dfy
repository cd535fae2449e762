/**
 Links and cells while several workers are connecting.

 Every link of the current pairing is somewhere: a worker is going to connect its two ends (`Planned`), is
 connecting them right now (`Flying`), the cell of a wire keeps it (`Stored`), or its two principal ports have
 been told of each other (`Met`).  A compare-and-exchange moves one link from one place to another, and the one
 that finds a value in the cell contracts the wire.
 */
module Race {
  import opened Links
  import opened Script
  import opened Machine
  import opened Heap

  datatype Where = Stored | Flying(worker: nat) | Planned(worker: nat) | Met

  type Places = map<End, Where>

  ghost predicate AllPlaced(L: Links, at: Places) {
    && Matching(L) && at.Keys == L.Keys
    && (forall e {:trigger at[e]} :: e in L ==> at[L[e]] == at[e])
    && (forall e {:trigger at[e]} :: e in L && at[e].Met? ==> e.Principal? && L[e].Principal?)
  }

  // A stored link is in one cell, and the cells hold nothing but stored links.
  ghost predicate CellsAgree(cells: Cells, L: Links, at: Places) {
    && (forall e {:trigger at[e]} :: e in L && e in at && at[e].Stored? ==>
          HeldBy(cells, e, L[e]) != HeldBy(cells, L[e], e))
    && (forall w {:trigger cells[w]} :: w in cells && cells[w].Some? ==>
          var x := cells[w].value; x in L && x in at && at[x].Stored? && L[x].WireEnd? && L[x].wire == w)
  }

  // Whoever is connecting, or a cell, only refers to wires that are still there.
  ghost predicate LinksLive(cells: Cells, L: Links, at: Places) {
    forall e {:trigger at[e]} :: e in L && e in at && e.WireEnd? && (at[e].Stored? || at[e].Flying?) ==> e.wire in cells
  }

  ghost predicate Sound(cells: Cells, L: Links, at: Places) {
    AllPlaced(L, at) && CellsAgree(cells, L, at) && LinksLive(cells, L, at)
  }

  // The links that worker `t` has planned, or is connecting, are left as they were.
  ghost predicate Untouched(L: Links, at: Places, L': Links, at': Places, t: nat) {
    forall e {:trigger L[e]} {:trigger L'[e]} ::
      && (e in L && e in at && (at[e] == Planned(t) || at[e] == Flying(t)) ==>
            e in L' && e in at' && at'[e] == at[e] && L'[e] == L[e])
      && (e in L' && e in at' && (at'[e] == Planned(t) || at'[e] == Flying(t)) ==>
            e in L && e in at && at[e] == at'[e] && L[e] == L'[e])
  }

  // ----- The steps -----

  function Moved(at: Places, l: End, r: End, to: Where): Places {
    at[l := to][r := to]
  }

  lemma MovedElsewhere(L: Links, at: Places, l: End, r: End, to: Where, t: nat)
    requires AllPlaced(L, at) && l in L && L[l] == r
    requires at[l] != Planned(t) && at[l] != Flying(t) && to != Planned(t) && to != Flying(t)
    ensures Untouched(L, at, L, Moved(at, l, r, to), t)
  {
    assert at[r] == at[l];
  }

  lemma MovedPlaced(L: Links, at: Places, l: End, r: End, to: Where)
    requires AllPlaced(L, at) && l in L && L[l] == r && (to.Met? ==> l.Principal? && r.Principal?)
    ensures AllPlaced(L, Moved(at, l, r, to))
  {
    assert at[r] == at[l] && L[r] == l;
    var at' := Moved(at, l, r, to);
    forall e | e in L
      ensures at'[L[e]] == at'[e] && (at'[e].Met? ==> e.Principal? && L[e].Principal?)
    {
      if e != l && e != r {
        assert at[L[e]] == at[e] && L[e] != l && L[e] != r;
      }
    }
  }

  lemma MovedAgree(cells: Cells, L: Links, at: Places, l: End, r: End, to: Where)
    requires Sound(cells, L, at) && l in L && L[l] == r && !at[l].Stored? && !to.Stored?
    ensures CellsAgree(cells, L, Moved(at, l, r, to))
  {
    assert at[r] == at[l] && L[r] == l;
    var at' := Moved(at, l, r, to);
    forall e | e in L && at'[e].Stored?
      ensures HeldBy(cells, e, L[e]) != HeldBy(cells, L[e], e)
    {
      assert at[e].Stored?;
    }
  }

  // The worker begins to connect two ends.
  lemma Launch(cells: Cells, L: Links, at: Places, l: End, r: End, t: nat)
    requires Sound(cells, L, at) && l in L && L[l] == r && at[l] == Planned(t)
    requires (l.WireEnd? ==> l.wire in cells) && (r.WireEnd? ==> r.wire in cells)
    ensures Sound(cells, L, Moved(at, l, r, Flying(t)))
  {
    MovedPlaced(L, at, l, r, Flying(t));
    MovedAgree(cells, L, at, l, r, Flying(t));
  }

  // Two principal ports are told of each other.
  lemma MeetUp(cells: Cells, L: Links, at: Places, l: End, r: End, t: nat)
    requires Sound(cells, L, at) && l in L && L[l] == r && at[l] == Flying(t) && l.Principal? && r.Principal?
    ensures Sound(cells, L, Moved(at, l, r, Met))
  {
    MovedPlaced(L, at, l, r, Met);
    MovedAgree(cells, L, at, l, r, Met);
  }

  // The exchange finds an empty cell.
  lemma Win(cells: Cells, L: Links, at: Places, l: End, r: End, t: nat)
    requires Sound(cells, L, at) && l in L && L[l] == r && at[l] == Flying(t)
    requires l.WireEnd? && l.wire in cells && cells[l.wire].None?
    ensures Sound(cells[l.wire := Some(r)], L, Moved(at, l, r, Stored))
  {
    var after, at' := cells[l.wire := Some(r)], Moved(at, l, r, Stored);
    MovedPlaced(L, at, l, r, Stored);
    assert at[r] == at[l] && L[r] == l;
    assert !HeldBy(cells, r, l);
    forall e | e in L && at'[e].Stored?
      ensures HeldBy(after, e, L[e]) != HeldBy(after, L[e], e)
    {
      if e != l && e != r {
        assert at[e].Stored? && L[e] != l && L[e] != r;
        assert HeldBy(after, e, L[e]) == HeldBy(cells, e, L[e]);
        assert HeldBy(after, L[e], e) == HeldBy(cells, L[e], e);
      }
    }
  }

  // The exchange finds a value: it was stored by the other end of the wire.
  lemma LoseFinds(cells: Cells, L: Links, at: Places, l: End, r: End, t: nat)
    requires Sound(cells, L, at) && l in L && L[l] == r && at[l] == Flying(t)
    requires l.WireEnd? && l.wire in cells && cells[l.wire].Some?
    ensures l.Mate() in L && L[l.Mate()] == cells[l.wire].value && at[l.Mate()] == Stored
    ensures r != l.Mate() && L[l.Mate()] != l
  {
    var v := cells[l.wire].value;
    assert L[L[v]] == v && at[L[v]] == at[v];
  }

  // The links after the worker has taken the wire out: the two values are connected next.
  function Taken(L: Links, l: End): Links
    requires l.WireEnd? && l in L && l.Mate() in L
  {
    Link(L - {l, l.Mate()}, L[l.Mate()], L[l])
  }

  function TakenAt(L: Links, at: Places, l: End, t: nat): Places
    requires l.WireEnd? && l in L && l.Mate() in L
  {
    Moved(at - {l, l.Mate()}, L[l.Mate()], L[l], Flying(t))
  }

  lemma TakenMatching(L: Links, l: End)
    requires Matching(L) && l.WireEnd? && l in L && l.Mate() in L && L[l] != l.Mate()
    ensures Taken(L, l).Keys == L.Keys - {l, l.Mate()} && SamePairing(L, Taken(L, l))
    ensures forall e :: e in L && e != l && e != l.Mate() && e != L[l] && e != L[l.Mate()] ==> Taken(L, l)[e] == L[e]
  {
    assert L[L[l]] == l && L[L[l.Mate()]] == l.Mate();
    var w0, w1 := WireEnd(l.wire, false), WireEnd(l.wire, true);
    assert Taken(L, l) == Contract(L, l.wire);
    ContractSamePairing(L, l.wire);
  }

  lemma Lose(cells: Cells, L: Links, at: Places, l: End, r: End, t: nat)
    requires Sound(cells, L, at) && l in L && L[l] == r && at[l] == Flying(t)
    requires l.WireEnd? && l.wire in cells && cells[l.wire].Some?
    ensures l.Mate() in L && L[l.Mate()] == cells[l.wire].value
    ensures Sound(cells - {l.wire}, Taken(L, l), TakenAt(L, at, l, t)) && SamePairing(L, Taken(L, l))
  {
    LoseFinds(cells, L, at, l, r, t);
    TakenMatching(L, l);
    LosePlaced(L, at, l, t);
    LoseAgree(cells, L, at, l, r, t);
    LoseLive(cells, L, at, l, r, t);
  }

  lemma LosePlaced(L: Links, at: Places, l: End, t: nat)
    requires AllPlaced(L, at) && l.WireEnd? && l in L && l.Mate() in L && L[l] != l.Mate() && Matching(Taken(L, l))
    ensures AllPlaced(Taken(L, l), TakenAt(L, at, l, t))
  {
    assert L[L[l]] == l && L[L[l.Mate()]] == l.Mate();
    var M, at' := Taken(L, l), TakenAt(L, at, l, t);
    forall e | e in M
      ensures at'[M[e]] == at'[e] && (at'[e].Met? ==> e.Principal? && M[e].Principal?)
    {
      if e != L[l] && e != L[l.Mate()] {
        assert e in L && M[e] == L[e] && at[L[e]] == at[e];
      }
    }
  }

  lemma LoseAgree(cells: Cells, L: Links, at: Places, l: End, r: End, t: nat)
    requires Sound(cells, L, at) && l in L && L[l] == r && at[l] == Flying(t)
    requires l.WireEnd? && l.wire in cells && cells[l.wire].Some?
    requires l.Mate() in L && L[l.Mate()] == cells[l.wire].value && at[l.Mate()] == Stored && L[l] != l.Mate()
    requires AllPlaced(Taken(L, l), TakenAt(L, at, l, t))
    ensures CellsAgree(cells - {l.wire}, Taken(L, l), TakenAt(L, at, l, t))
  {
    var m, v, M, at', after := l.Mate(), cells[l.wire].value, Taken(L, l), TakenAt(L, at, l, t), cells - {l.wire};
    assert L[L[l]] == l && L[v] == m && at[r] == at[l];
    assert HeldBy(cells, m, v) && !HeldBy(cells, v, m);
    forall e | e in M && at'[e].Stored?
      ensures HeldBy(after, e, M[e]) != HeldBy(after, M[e], e)
    {
      assert e in L && at[e].Stored? && e != v && e != r && M[e] == L[e];
    }
    forall w | w in after && after[w].Some?
      ensures var x := after[w].value; x in M && at'[x].Stored? && M[x].WireEnd? && M[x].wire == w
    {
      var x := after[w].value;
      assert cells[w] == after[w] && x in L && at[x].Stored? && L[x].wire == w;
      assert x != v && x != l && x != r;
      assert x != m;
    }
  }

  lemma LoseLive(cells: Cells, L: Links, at: Places, l: End, r: End, t: nat)
    requires Sound(cells, L, at) && l in L && L[l] == r && at[l] == Flying(t)
    requires l.WireEnd? && l.Mate() in L && at[l.Mate()] == Stored && L[l] != l.Mate()
    requires AllPlaced(Taken(L, l), TakenAt(L, at, l, t))
    ensures LinksLive(cells - {l.wire}, Taken(L, l), TakenAt(L, at, l, t))
  {
    var m, M, at' := l.Mate(), Taken(L, l), TakenAt(L, at, l, t);
    assert at[L[m]] == at[m] && at[r] == at[l];
    forall e | e in M && e.WireEnd? && (at'[e].Stored? || at'[e].Flying?)
      ensures e.wire in cells - {l.wire}
    {
      assert e in L && e != l && e != m && (at[e].Stored? || at[e].Flying?);
    }
  }

  lemma LoseElsewhere(L: Links, at: Places, l: End, t: nat, t': nat)
    requires AllPlaced(L, at) && l.WireEnd? && l in L && at[l] == Flying(t) && t' != t
    requires l.Mate() in L && at[l.Mate()] == Stored
    ensures Untouched(L, at, Taken(L, l), TakenAt(L, at, l, t), t')
  {
    assert at[L[l]] == at[l] && at[L[l.Mate()]] == Stored;
  }

  // A worker plans to connect the pairs of `A`.
  function PlanAt(at: Places, A: Links, t: nat): Places {
    at + map e | e in A :: Planned(t)
  }

  lemma Plan(cells: Cells, L: Links, at: Places, A: Links, t: nat)
    requires Sound(cells, L, at) && Matching(A) && L.Keys !! A.Keys
    ensures Sound(cells, L + A, PlanAt(at, A, t))
  {
    UnionMatching(L, A);
    var M, at' := L + A, PlanAt(at, A, t);
    forall e | e in M
      ensures at'[M[e]] == at'[e] && (at'[e].Met? ==> e.Principal? && M[e].Principal?)
    {
      if e in A {
        assert A[e] in A;
      } else {
        assert e in L && L[e] in L.Keys && at[L[e]] == at[e];
      }
    }
    PlanAgree(cells, L, at, A, t);
  }

  lemma PlanAgree(cells: Cells, L: Links, at: Places, A: Links, t: nat)
    requires Sound(cells, L, at) && Matching(A) && L.Keys !! A.Keys && Matching(L + A)
    ensures CellsAgree(cells, L + A, PlanAt(at, A, t)) && LinksLive(cells, L + A, PlanAt(at, A, t))
  {
    var M, at' := L + A, PlanAt(at, A, t);
    forall e | e in M && !at'[e].Planned?
      ensures e in L && e !in A && M[e] == L[e] && at'[e] == at[e]
    {
    }
    forall w | w in cells && cells[w].Some?
      ensures var x := cells[w].value; x in M && at'[x].Stored? && M[x].WireEnd? && M[x].wire == w
    {
      assert cells[w].value in L.Keys;
    }
  }

  lemma PlanElsewhere(L: Links, at: Places, A: Links, t: nat, t': nat)
    requires AllPlaced(L, at) && L.Keys !! A.Keys && t' != t
    ensures Untouched(L, at, L + A, PlanAt(at, A, t), t')
  {
    var M, at' := L + A, PlanAt(at, A, t);
    forall e
      ensures e in L ==> e in M && M[e] == L[e] && at'[e] == at[e]
      ensures e in M && e !in L ==> at'[e] == Planned(t)
    {
      if e in L {
        assert e in L.Keys;
      }
    }
  }

  // ----- When everybody is done -----

  // With nothing planned and nothing in flight, two principal ports that face each other have met.
  lemma FacingHaveMet(cells: Cells, L: Links, at: Places, p: End)
    requires Sound(cells, L, at) && (forall e :: e in L ==> at[e].Stored? || at[e].Met?)
    requires p.Principal? && p in L && Partner(L, p).Principal?
    ensures at[p].Met? && L[p] == Partner(L, p)
  {
    if L[p].WireEnd? {
      assert StoredOnce(cells, L);
      WalkAgainst(cells, L, p);
      assert false;
    }
    if at[p].Stored? {
      assert false;
    }
  }
}
