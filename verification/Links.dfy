/**
 The pairing of wire ends.

 A wire has two references to it, which `x_link` pushes side by side and `reconnect_output` splits between a
 slot and the stack.  The model tells the two apart by a side; no operation ever looks at it.  A set of links
 says which ends have been handed to `connect` together.  The pairing it stands for is found by walking: cross
 the wire, follow the link, cross the next wire, until an end nobody has connected yet or a principal port.
 */
module Links {

  // A node or a wire is named after the nodes whose interaction made it, and a running number.
  datatype NodeId = NodeId(makers: set<NodeId>, k: nat)
  datatype Wire = Wire(makers: set<NodeId>, k: nat)

  datatype End = WireEnd(wire: Wire, side: bool) | Principal(node: NodeId)
  {
    // The other end of the same wire.
    function Mate(): End
      requires WireEnd?
    {
      WireEnd(wire, !side)
    }
  }

  type Links = map<End, End>

  ghost predicate Matching(L: Links)
  {
    forall e {:trigger L[e]} :: e in L ==> L[e] in L && L[L[e]] == e && L[e] != e
  }

  // ----- Adding and removing links -----

  function Unlink(L: Links, m: End): Links
    requires m in L
  {
    L - {m, L[m]}
  }

  function Link(L: Links, a: End, b: End): Links {
    L[a := b][b := a]
  }

  lemma UnlinkMatching(L: Links, m: End)
    requires Matching(L) && m in L
    ensures Matching(Unlink(L, m)) && |Unlink(L, m)| < |L|
    ensures Unlink(L, m).Keys == L.Keys - {m, L[m]}
  {
    assert Unlink(L, m).Keys < L.Keys by {
      assert m in L.Keys && m !in Unlink(L, m).Keys;
    }
    SmallerDomain(Unlink(L, m), L);
  }

  lemma SmallerDomain(a: Links, b: Links)
    requires a.Keys < b.Keys
    ensures |a| < |b|
  {
    SmallerSet(a.Keys, b.Keys);
    assert |a| == |a.Keys| && |b| == |b.Keys|;
  }

  lemma SmallerSet<T>(a: set<T>, b: set<T>)
    requires a < b
    ensures |a| < |b|
  {
    var x :| x in b && x !in a;
    assert a <= b - {x};
    SubsetSize(a, b - {x});
  }

  lemma SubsetSize<T>(a: set<T>, b: set<T>)
    requires a <= b
    ensures |a| <= |b|
  {
    if a != {} {
      var x :| x in a;
      SubsetSize(a - {x}, b - {x});
    }
  }

  lemma LinkMatching(L: Links, a: End, b: End)
    requires Matching(L) && a !in L && b !in L && a != b
    ensures Matching(Link(L, a, b))
    ensures Link(L, a, b).Keys == L.Keys + {a, b}
  {
    var M := Link(L, a, b);
    forall e | e in M
      ensures M[e] in M && M[M[e]] == e && M[e] != e
    {
      if e != a && e != b {
        assert e in L && M[e] == L[e];
      }
    }
  }

  // ----- Walking -----

  // Where one arrives after entering at `x`, an end that carries no link (any more).
  ghost function Walk(L: Links, x: End): End
    requires Matching(L) && x !in L
    decreases |L|
  {
    if x.Principal? then x
    else
      var m := x.Mate();
      if m !in L then m
      else
        UnlinkMatching(L, m);
        Walk(Unlink(L, m), L[m])
  }

  // The ends that matter from outside: wire ends nobody has connected, principal ports somebody has.
  ghost predicate Outer(L: Links, x: End)
  {
    if x.Principal? then x in L else x !in L
  }

  ghost function Partner(L: Links, x: End): End
    requires Matching(L) && Outer(L, x)
  {
    if x.Principal? then
      UnlinkMatching(L, x);
      Walk(Unlink(L, x), L[x])
    else
      Walk(L, x)
  }

  // ----- Removing a wire whose two ends are both linked -----

  ghost predicate Inner(L: Links, w: Wire)
  {
    WireEnd(w, false) in L && WireEnd(w, true) in L
  }

  function Contract(L: Links, w: Wire): Links
    requires WireEnd(w, false) in L && WireEnd(w, true) in L
  {
    var w0, w1 := WireEnd(w, false), WireEnd(w, true);
    if L[w0] == w1 || w1 !in Unlink(L, w0) then Unlink(L, w0)
    else Link(Unlink(Unlink(L, w0), w1), L[w0], L[w1])
  }

  lemma ContractMatching(L: Links, w: Wire)
    requires Matching(L) && Inner(L, w)
    ensures Matching(Contract(L, w))
    ensures Contract(L, w).Keys == L.Keys - {WireEnd(w, false), WireEnd(w, true)}
  {
    var w0, w1 := WireEnd(w, false), WireEnd(w, true);
    if L[w0] == w1 {
      UnlinkMatching(L, w0);
    } else {
      BypassMatching(L, w0, w1);
    }
  }

  // Two links replaced by the one that joins their far ends.
  lemma BypassMatching(L: Links, m: End, n: End)
    requires Matching(L) && m in L && n in L && m != n && L[m] != n
    ensures n in Unlink(L, m)
    ensures Matching(Link(Unlink(Unlink(L, m), n), L[m], L[n]))
    ensures Link(Unlink(Unlink(L, m), n), L[m], L[n]).Keys == L.Keys - {m, n}
  {
    UnlinkMatching(L, m);
    var rest := Unlink(L, m);
    BypassKeys(L, m, n);
    UnlinkMatching(rest, n);
    LinkMatching(Unlink(rest, n), L[m], L[n]);
  }

  lemma BypassKeys(L: Links, m: End, n: End)
    requires Matching(L) && m in L && n in L && m != n && L[m] != n
    ensures n in Unlink(L, m) && Unlink(L, m)[n] == L[n]
    ensures L[m] != L[n] && {L[m], L[n]} <= L.Keys - {m, n}
    ensures Unlink(Unlink(L, m), n).Keys == L.Keys - {m, n} - {L[m], L[n]}
  {
    assert L[L[m]] == m && L[L[n]] == n;
  }

  lemma ContractSize(L: Links, w: Wire)
    requires Matching(L) && Inner(L, w)
    ensures |Contract(L, w)| < |L|
  {
    ContractMatching(L, w);
    assert WireEnd(w, false) in L.Keys;
    SmallerDomain(Contract(L, w), L);
  }

  // Removing a link that does not touch the wire commutes with removing the wire.
  lemma ContractAway(L: Links, w: Wire, m: End)
    requires Matching(L) && Inner(L, w) && m in L
    requires m != WireEnd(w, false) && m != WireEnd(w, true)
    requires L[m] != WireEnd(w, false) && L[m] != WireEnd(w, true)
    ensures m in Contract(L, w) && Contract(L, w)[m] == L[m]
    ensures Inner(Unlink(L, m), w) && Unlink(Contract(L, w), m) == Contract(Unlink(L, m), w)
  {
    var w0, w1 := WireEnd(w, false), WireEnd(w, true);
    assert L[w0] != m && L[w1] != m;
    assert L[w0] != L[m] && L[w1] != L[m];
  }

  // A link into the wire becomes, once the wire is gone, a link to what the wire led to.
  lemma ContractInto(L: Links, w: Wire, m: End)
    requires Matching(L) && Inner(L, w) && m in L
    requires m != WireEnd(w, false) && m != WireEnd(w, true)
    requires L[m] == WireEnd(w, false) || L[m] == WireEnd(w, true)
    ensures m in Contract(L, w) && L[m].Mate() in Unlink(L, m)
    ensures Contract(L, w)[m] == L[L[m].Mate()]
    ensures Unlink(Contract(L, w), m) == Unlink(Unlink(L, m), L[m].Mate())
  {
    assert L[L[m]] == m;
    assert L[L[m].Mate()] != m;
  }

  lemma {:induction false} ContractWalk(L: Links, w: Wire, x: End)
    requires Matching(L) && Inner(L, w) && x !in L
    ensures Matching(Contract(L, w)) && x !in Contract(L, w)
    ensures Walk(Contract(L, w), x) == Walk(L, x)
    decreases |L|
  {
    ContractMatching(L, w);
    if x.WireEnd? && x.Mate() in L {
      ContractStep(L, w, x.Mate());
    }
  }

  lemma {:induction false} ContractStep(L: Links, w: Wire, m: End)
    requires Matching(L) && Inner(L, w) && m in L
    requires m != WireEnd(w, false) && m != WireEnd(w, true)
    ensures Matching(Contract(L, w)) && m in Contract(L, w)
    ensures Matching(Unlink(Contract(L, w), m)) && Matching(Unlink(L, m))
    ensures Contract(L, w)[m] !in Unlink(Contract(L, w), m)
    ensures Walk(Unlink(Contract(L, w), m), Contract(L, w)[m]) == Walk(Unlink(L, m), L[m])
    decreases |L|, 0
  {
    ContractMatching(L, w);
    UnlinkMatching(Contract(L, w), m);
    UnlinkMatching(L, m);
    if L[m] == WireEnd(w, false) || L[m] == WireEnd(w, true) {
      ContractInto(L, w, m);
      UnlinkMatching(Unlink(L, m), L[m].Mate());
    } else {
      ContractAway(L, w, m);
      ContractWalk(Unlink(L, m), w, L[m]);
    }
  }

  // Outer ends of the contracted links are outer ends of the original ones, except the removed wire's own.
  lemma ContractOuter(L: Links, w: Wire, x: End)
    requires Matching(L) && Inner(L, w) && Outer(Contract(L, w), x)
    requires x != WireEnd(w, false) && x != WireEnd(w, true)
    ensures Outer(L, x)
  {
    ContractMatching(L, w);
  }

  lemma ContractPartner(L: Links, w: Wire, x: End)
    requires Matching(L) && Inner(L, w) && Outer(L, x)
    ensures Matching(Contract(L, w)) && Outer(Contract(L, w), x)
    ensures Partner(Contract(L, w), x) == Partner(L, x)
  {
    if x.WireEnd? {
      ContractWalk(L, w, x);
    } else {
      ContractStep(L, w, x);
    }
  }

  // ----- Walks when no wire can be contracted -----

  ghost predicate Contracted(L: Links)
  {
    forall w :: !Inner(L, w)
  }

  // With nothing to contract, a link leads straight to a principal port or across one last wire.
  function Beyond(y: End): End {
    if y.Principal? then y else y.Mate()
  }

  lemma WalkContracted(L: Links, m: End)
    requires Matching(L) && Contracted(L) && m in L
    ensures Matching(Unlink(L, m)) && L[m] !in Unlink(L, m)
    ensures Walk(Unlink(L, m), L[m]) == Beyond(L[m])
    ensures Outer(L, Beyond(L[m]))
  {
    UnlinkMatching(L, m);
    if L[m].WireEnd? {
      assert !Inner(L, L[m].wire);
      assert L[m].Mate() !in L;
    }
  }

  lemma PartnerContracted(L: Links, x: End)
    requires Matching(L) && Contracted(L) && Outer(L, x)
    ensures Partner(L, x) == if Beyond(x) in L then Beyond(L[Beyond(x)]) else Beyond(x)
  {
    if Beyond(x) in L {
      WalkContracted(L, Beyond(x));
    }
  }

  // ----- The pairing is a perfect matching of the outer ends -----

  lemma {:induction false} PartnerInvolution(L: Links, x: End)
    requires Matching(L) && Outer(L, x)
    ensures Outer(L, Partner(L, x)) && Partner(L, x) != x && Partner(L, Partner(L, x)) == x
    decreases |L|
  {
    if Contracted(L) {
      PartnerInvolutionContracted(L, x);
    } else {
      var w :| Inner(L, w);
      ContractSize(L, w);
      ContractMatching(L, w);
      ContractPartner(L, w, x);
      PartnerInvolution(Contract(L, w), x);
      ContractOuter(L, w, Partner(L, x));
      ContractPartner(L, w, Partner(L, x));
    }
  }

  lemma PartnerInvolutionContracted(L: Links, x: End)
    requires Matching(L) && Contracted(L) && Outer(L, x)
    ensures Outer(L, Partner(L, x)) && Partner(L, x) != x && Partner(L, Partner(L, x)) == x
  {
    PartnerContracted(L, x);
    var m := Beyond(x);
    if m in L {
      WalkContracted(L, m);
      var y := Beyond(L[m]);
      assert Beyond(y) == L[m] && L[L[m]] == m;
      PartnerContracted(L, y);
    } else {
      PartnerContracted(L, m);
    }
  }

  // ----- Connecting two ends joins what they lead to -----

  // What `Partner` must become once `l` and `r` are linked.
  ghost function Joined(L: Links, l: End, r: End, x: End): End
    requires Matching(L) && l !in L && r !in L && l != r
    requires Outer(Link(L, l, r), x)
  {
    if x == l then Walk(L, r)
    else if x == r then Walk(L, l)
    else if Partner(L, x) == l then Walk(L, r)
    else if Partner(L, x) == r then Walk(L, l)
    else Partner(L, x)
  }

  lemma {:induction false} JoinPartner(L: Links, l: End, r: End, x: End)
    requires Matching(L) && l !in L && r !in L && l != r
    requires Outer(Link(L, l, r), x)
    ensures Matching(Link(L, l, r))
    ensures Partner(Link(L, l, r), x) == Joined(L, l, r, x)
    decreases |L|
  {
    LinkMatching(L, l, r);
    if Contracted(L) {
      JoinContracted(L, l, r, x);
    } else {
      var w :| Inner(L, w);
      JoinInner(L, l, r, x, w);
    }
  }

  lemma {:induction false} JoinInner(L: Links, l: End, r: End, x: End, w: Wire)
    requires Matching(L) && l !in L && r !in L && l != r
    requires Outer(Link(L, l, r), x) && Inner(L, w)
    ensures Matching(Link(L, l, r))
    ensures Partner(Link(L, l, r), x) == Joined(L, l, r, x)
    decreases |L|, 0
  {
    LinkMatching(L, l, r);
    ContractMatching(L, w);
    ContractSize(L, w);
    ContractLink(L, l, r, w);
    ContractPartner(Link(L, l, r), w, x);
    JoinPartner(Contract(L, w), l, r, x);
    JoinedContract(L, l, r, x, w);
  }

  lemma JoinedContract(L: Links, l: End, r: End, x: End, w: Wire)
    requires Matching(L) && l !in L && r !in L && l != r
    requires Outer(Link(L, l, r), x) && Inner(L, w)
    requires Matching(Contract(L, w)) && l !in Contract(L, w) && r !in Contract(L, w)
    requires Outer(Link(Contract(L, w), l, r), x)
    ensures Joined(Contract(L, w), l, r, x) == Joined(L, l, r, x)
  {
    ContractWalk(L, w, r);
    ContractWalk(L, w, l);
    if x != l && x != r {
      ContractPartner(L, w, x);
    }
  }

  lemma ContractLink(L: Links, l: End, r: End, w: Wire)
    requires Matching(L) && l !in L && r !in L && l != r && Inner(L, w)
    ensures Inner(Link(L, l, r), w)
    ensures Contract(Link(L, l, r), w) == Link(Contract(L, w), l, r)
  {
    var w0, w1 := WireEnd(w, false), WireEnd(w, true);
    var M := Link(L, l, r);
    assert M[w0] == L[w0] && M[w1] == L[w1];
    assert L[L[w0]] == w0 && L[L[w1]] == w1;
    UnlinkLink(L, l, r, w0);
    if L[w0] != w1 {
      UnlinkLink(Unlink(L, w0), l, r, w1);
    }
  }

  lemma UnlinkLink(L: Links, l: End, r: End, m: End)
    requires m in L && L[m] in L && l !in L && r !in L
    ensures m in Link(L, l, r) && Unlink(Link(L, l, r), m) == Link(Unlink(L, m), l, r)
  {
  }

  lemma UnlinkAdded(L: Links, l: End, r: End)
    requires l !in L && r !in L && l != r
    ensures Unlink(Link(L, l, r), l) == L && Unlink(Link(L, l, r), r) == L
  {
  }

  lemma JoinContracted(L: Links, l: End, r: End, x: End)
    requires Matching(L) && l !in L && r !in L && l != r && Contracted(L)
    requires Outer(Link(L, l, r), x)
    ensures Matching(Link(L, l, r))
    ensures Partner(Link(L, l, r), x) == Joined(L, l, r, x)
  {
    LinkMatching(L, l, r);
    UnlinkAdded(L, l, r);
    var m := Beyond(x);
    if m in L {
      JoinStep(L, l, r, m);
      PartnerContracted(L, x);
    }
  }

  lemma JoinStep(L: Links, l: End, r: End, m: End)
    requires Matching(L) && l !in L && r !in L && l != r && Contracted(L)
    requires m in L && Beyond(l) != m && Beyond(r) != m
    ensures m in Link(L, l, r) && Link(L, l, r)[m] == L[m]
    ensures Matching(Unlink(Link(L, l, r), m)) && L[m] !in Unlink(Link(L, l, r), m)
    ensures Walk(Unlink(Link(L, l, r), m), L[m])
         == if Beyond(L[m]) == l then Walk(L, r) else if Beyond(L[m]) == r then Walk(L, l) else Beyond(L[m])
  {
    UnlinkLink(L, l, r, m);
    WalkContracted(L, m);
    JoinOnce(Unlink(L, m), l, r, L[m]);
    if Beyond(L[m]) == l {
      WalkAside(L, m, r);
    } else if Beyond(L[m]) == r {
      WalkAside(L, m, l);
    }
  }

  lemma JoinOnce(N: Links, l: End, r: End, y: End)
    requires Matching(N) && l !in N && r !in N && l != r
    requires y !in N && y != l && y != r && Beyond(y) !in N
    ensures Matching(Link(N, l, r)) && y !in Link(N, l, r)
    ensures Walk(Link(N, l, r), y)
         == if Beyond(y) == l then Walk(N, r) else if Beyond(y) == r then Walk(N, l) else Beyond(y)
  {
    LinkMatching(N, l, r);
    UnlinkAdded(N, l, r);
  }

  lemma WalkAside(L: Links, m: End, r: End)
    requires Matching(L) && Contracted(L) && m in L && r !in L
    requires Beyond(r) != m && Beyond(r) != L[m]
    ensures Matching(Unlink(L, m)) && r !in Unlink(L, m)
    ensures Walk(Unlink(L, m), r) == Walk(L, r)
  {
    UnlinkMatching(L, m);
    if r.WireEnd? && r.Mate() in L {
      WalkContracted(L, r.Mate());
      var M := Unlink(L, m);
      assert r.Mate() in M && M[r.Mate()] == L[r.Mate()];
      UnlinkMatching(M, r.Mate());
    }
  }

  // ----- Two sets of links that stand for the same pairing -----

  // `M` is what is left of `L` after some wires were contracted away.
  ghost predicate SamePairing(L: Links, M: Links)
  {
    && Matching(L) && Matching(M) && M.Keys <= L.Keys
    && forall x {:trigger Outer(L, x)} :: Outer(L, x) ==> Outer(M, x) && Partner(M, x) == Partner(L, x)
  }

  lemma ContractSamePairing(L: Links, w: Wire)
    requires Matching(L) && Inner(L, w)
    ensures SamePairing(L, Contract(L, w))
  {
    ContractMatching(L, w);
    forall x | Outer(L, x)
      ensures Outer(Contract(L, w), x) && Partner(Contract(L, w), x) == Partner(L, x)
    {
      ContractPartner(L, w, x);
    }
  }

  lemma SamePairingTransitive(L: Links, M: Links, N: Links)
    requires SamePairing(L, M) && SamePairing(M, N)
    ensures SamePairing(L, N)
  {
  }

  // Linking two ends in both keeps them in step.
  lemma SamePairingLink(L: Links, M: Links, l: End, r: End)
    requires SamePairing(L, M) && l !in L && r !in L && l != r
    ensures SamePairing(Link(L, l, r), Link(M, l, r))
  {
    LinkMatching(L, l, r);
    LinkMatching(M, l, r);
    forall x | Outer(Link(L, l, r), x)
      ensures Outer(Link(M, l, r), x) && Partner(Link(M, l, r), x) == Partner(Link(L, l, r), x)
    {
      SamePairingLinkAt(L, M, l, r, x);
    }
  }

  lemma SamePairingLinkAt(L: Links, M: Links, l: End, r: End, x: End)
    requires SamePairing(L, M) && l !in L && r !in L && l != r && Outer(Link(L, l, r), x)
    ensures Matching(Link(L, l, r)) && Matching(Link(M, l, r))
    ensures Outer(Link(M, l, r), x) && Partner(Link(M, l, r), x) == Partner(Link(L, l, r), x)
  {
    hide Matching, Walk, Partner, Joined;
    LinkMatching(L, l, r);
    LinkMatching(M, l, r);
    assert x != l && x != r ==> Outer(L, x) && Outer(M, x);
    SameJoined(L, M, l, r, x);
    JoinPartner(L, l, r, x);
    JoinPartner(M, l, r, x);
  }

  lemma SameJoined(L: Links, M: Links, l: End, r: End, x: End)
    requires SamePairing(L, M) && l !in L && r !in L && l != r
    requires Outer(Link(L, l, r), x) && Outer(Link(M, l, r), x)
    ensures Joined(L, l, r, x) == Joined(M, l, r, x)
  {
    hide Matching, Walk, Partner;
    SameWalk(L, M, l);
    SameWalk(L, M, r);
    assert x != l && x != r ==> Outer(L, x) && Outer(M, x);
  }

  lemma SameWalk(L: Links, M: Links, e: End)
    requires SamePairing(L, M) && e !in L
    ensures Walk(L, e) == Walk(M, e)
  {
    assert e.WireEnd? ==> Outer(L, e);
  }

  lemma {:induction false} SamePairingUnion(L: Links, M: Links, A: Links)
    requires SamePairing(L, M) && Matching(A) && L.Keys !! A.Keys
    ensures SamePairing(L + A, M + A)
    decreases |A|
  {
    hide Walk, Partner;
    if A == map[] {
      assert L + A == L && M + A == M;
    } else {
      var a :| a in A;
      UnlinkMatching(A, a);
      var rest := Unlink(A, a);
      SamePairingUnion(L, M, rest);
      SamePairingLink(L + rest, M + rest, a, A[a]);
      UnionLink(L, A, a);
      UnionLink(M, A, a);
    }
  }

  lemma UnionLink(L: Links, A: Links, a: End)
    requires Matching(A) && a in A
    ensures L + A == Link(L + Unlink(A, a), a, A[a])
  {
    assert A[A[a]] == a;
  }

  // ----- Links added elsewhere leave a walk alone -----

  lemma UnionMatching(L: Links, A: Links)
    requires Matching(L) && Matching(A) && L.Keys !! A.Keys
    ensures Matching(L + A)
  {
    var M := L + A;
    forall e | e in M
      ensures M[e] in M && M[M[e]] == e && M[e] != e
    {
      if e in A {
        assert M[e] == A[e];
      } else {
        assert M[e] == L[e] && L[e] in L.Keys;
      }
    }
  }

  lemma {:induction false} WalkUnion(L: Links, A: Links, x: End)
    requires Matching(L) && Matching(A) && L.Keys !! A.Keys
    requires x !in L && x !in A && Walk(L, x) !in A
    ensures Matching(L + A) && Walk(L + A, x) == Walk(L, x)
    decreases |L|
  {
    UnionMatching(L, A);
    if x.WireEnd? && x.Mate() in L {
      UnionStep(L, A, x.Mate());
    }
  }

  lemma {:induction false} UnionStep(L: Links, A: Links, m: End)
    requires Matching(L) && Matching(A) && L.Keys !! A.Keys && m in L
    requires Matching(Unlink(L, m)) && L[m] !in Unlink(L, m)
    requires Walk(Unlink(L, m), L[m]) !in A
    ensures Matching(L + A) && m in L + A && (L + A)[m] == L[m]
    ensures Matching(Unlink(L + A, m)) && L[m] !in Unlink(L + A, m)
    ensures Walk(Unlink(L + A, m), L[m]) == Walk(Unlink(L, m), L[m])
    decreases |L|, 0
  {
    UnionMatching(L, A);
    UnlinkMatching(L, m);
    UnlinkUnion(L, A, m);
    UnlinkMatching(L + A, m);
    WalkUnion(Unlink(L, m), A, L[m]);
  }

  lemma UnlinkUnion(L: Links, A: Links, m: End)
    requires m in L && L[m] in L && L.Keys !! A.Keys
    ensures m in L + A && (L + A)[m] == L[m]
    ensures Unlink(L + A, m) == Unlink(L, m) + A
  {
    assert m in L.Keys && L[m] in L.Keys;
  }

  lemma PartnerUnion(L: Links, A: Links, x: End)
    requires Matching(L) && Matching(A) && L.Keys !! A.Keys
    requires Outer(L, x) && x !in A && Partner(L, x) !in A
    ensures Matching(L + A) && Outer(L + A, x) && Partner(L + A, x) == Partner(L, x)
  {
    UnionMatching(L, A);
    if x.WireEnd? {
      WalkUnion(L, A, x);
    } else {
      UnlinkMatching(L, x);
      UnionStep(L, A, x);
    }
  }
}
