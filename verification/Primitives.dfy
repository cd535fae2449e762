/**
 What the words of the prelude do to the value stack and to the net.
 */
module Primitives {
  import opened Links
  import opened Script
  import opened Machine
  import opened Compiler
  import opened Reading
  import opened NatEffects

  // One word after another.
  function ApplyPrims(w: World, prims: seq<Prim>): Option<World>
    decreases |prims|
  {
    if prims == [] then Some(w)
    else
      match ApplyPrim(w, prims[0])
      case None => None
      case Some(w') => ApplyPrims(w', prims[1..])
  }

  lemma FirstPrim(w: World, p: Prim, prims: seq<Prim>, w': World)
    requires ApplyPrim(w, p) == Some(w')
    ensures ApplyPrims(w, [p] + prims) == ApplyPrims(w', prims)
  {
    assert ([p] + prims)[1..] == prims;
  }

  // ----- The stack -----

  lemma Args(w: World, base: seq<Value>, args: seq<Value>)
    requires w.stack == base + args
    ensures w.stack[..|w.stack| - |args|] == base && w.stack[|w.stack| - |args|..] == args
  {
  }

  // Whatever is below, each word rearranges the top of the stack and does nothing else.
  lemma StackWords(w: World, base: seq<Value>, x: Value, y: Value, z: Value)
    ensures ApplyPrim(w.(stack := base + [x]), DupP) == Some(w.(stack := base + [x, x]))
    ensures ApplyPrim(w.(stack := base + [x]), DropP) == Some(w.(stack := base))
    ensures ApplyPrim(w.(stack := base + [x, y]), SwapP) == Some(w.(stack := base + [y, x]))
    ensures ApplyPrim(w.(stack := base + [x, y]), OverP) == Some(w.(stack := base + [x, y, x]))
    ensures ApplyPrim(w.(stack := base + [x, y]), TuckP) == Some(w.(stack := base + [y, x, y]))
    ensures ApplyPrim(w.(stack := base + [x, y, z]), RotP) == Some(w.(stack := base + [y, z, x]))
  {
    Args(w.(stack := base + [x]), base, [x]);
    Args(w.(stack := base + [x, y]), base, [x, y]);
    Args(w.(stack := base + [x, y, z]), base, [x, y, z]);
  }

  // `swap swap` and `rot rot rot` change nothing, `dup drop` and `over drop` neither, and `tuck` is `swap over`.
  lemma StackLaws(w: World, base: seq<Value>, x: Value, y: Value, z: Value)
    ensures ApplyPrims(w.(stack := base + [x, y]), [SwapP, SwapP]) == Some(w.(stack := base + [x, y]))
    ensures ApplyPrims(w.(stack := base + [x, y, z]), [RotP, RotP, RotP]) == Some(w.(stack := base + [x, y, z]))
    ensures ApplyPrims(w.(stack := base + [x]), [DupP, DropP]) == Some(w.(stack := base + [x]))
    ensures ApplyPrims(w.(stack := base + [x, y]), [OverP, DropP]) == Some(w.(stack := base + [x, y]))
    ensures ApplyPrims(w.(stack := base + [x, y]), [TuckP]) == ApplyPrims(w.(stack := base + [x, y]), [SwapP, OverP])
  {
    hide ApplyPrim;
    StackWords(w, base, x, y, z);
    StackWords(w, base, y, x, z);
    StackWords(w, base, y, z, x);
    StackWords(w, base, z, x, y);
    StackWords(w, base + [x], x, y, z);
    StackWords(w, base + [x, y], x, y, z);
    assert base + [x] + [x] == base + [x, x] && base + [x, y] + [x] == base + [x, y, x];
    TwoPrims(w.(stack := base + [x, y]), SwapP, SwapP);
    TwoPrims(w.(stack := base + [x]), DupP, DropP);
    TwoPrims(w.(stack := base + [x, y]), OverP, DropP);
    TwoPrims(w.(stack := base + [x, y]), SwapP, OverP);
    OnePrim(w.(stack := base + [x, y]), TuckP);
    TwoPrims(w.(stack := base + [y, z, x]), RotP, RotP);
    FirstPrim(w.(stack := base + [x, y, z]), RotP, [RotP, RotP], w.(stack := base + [y, z, x]));
    assert [RotP] + [RotP, RotP] == [RotP, RotP, RotP];
  }

  lemma OnePrim(w: World, p: Prim)
    ensures ApplyPrims(w, [p]) == ApplyPrim(w, p)
  {
    hide ApplyPrim;
    assert [p][1..] == [];
  }

  lemma TwoPrims(w: World, p: Prim, q: Prim)
    requires ApplyPrim(w, p).Some?
    ensures ApplyPrims(w, [p, q]) == ApplyPrim(ApplyPrim(w, p).value, q)
  {
    hide ApplyPrim;
    assert [p, q][1..] == [q];
    OnePrim(ApplyPrim(w, p).value, q);
  }

  // Fewer values than a word takes, and it fails.
  lemma TooFew(w: World, p: Prim)
    ensures |w.stack| < PrimInputs(p) ==> ApplyPrim(w, p) == None
    ensures PrimInputs(LinkP) == 0 && PrimInputs(DupP) == 1 && PrimInputs(RotP) == 3
  {
  }

  // ----- `link` -----

  // The two values on top are the two ends of one wire, which is new: no name up to now is its name.
  lemma LinkGives(w: World) returns (w': World, e: End)
    ensures ApplyPrim(w, LinkP) == Some(w') && e.WireEnd?
    ensures w'.stack == w.stack + [Ref(e), Ref(e.Mate())]
    ensures w'.script == w.script + [NewWire(e.wire)] && w'.makers == w.makers == e.wire.makers
    ensures w.next <= e.wire.k < w'.next
  {
    var x := w.FreshWire();
    e := WireEnd(x, false);
    w' := ApplyPrim(w, LinkP).value;
  }

  // Connecting the one end to `l` and the other to `r` pairs as connecting `l` and `r`: the words
  // `link rot connect connect` instead of `connect`.
  lemma LinkConnects(w: World, base: seq<Value>, b: Build, l: End, r: End)
    returns (w': World, script: seq<Action>, c: Build)
    requires w.stack == base + [Ref(l), Ref(r)] && b.makers == w.makers && b.next == w.next
    requires NamesLeft(b) && Matching(b.links) && l in b.free && r in b.free && l != r
    requires forall e :: e in b.free ==> e !in b.links
    requires forall e :: e in b.links && e.WireEnd? && e.wire.makers == b.makers ==> e.wire.k < b.next
    ensures ApplyPrims(w, [LinkP, RotP, ConnectP, ConnectP]) == Some(w')
    ensures w'.stack == base && w'.script == w.script + script && Leads(b, script, c)
    ensures ApplyPrim(w, ConnectP) == Some(w.(stack := base).Log(Join(l, r)))
    ensures Leads(b, [Join(l, r)], Perform(b, Join(l, r)))
    ensures c.free == Perform(b, Join(l, r)).free && c.nodes == Perform(b, Join(l, r)).nodes
    ensures SamePairing(c.links, Perform(b, Join(l, r)).links)
  {
    var w1, e := LinkGives(w);
    var w4 := World(w1.makers, w1.next, base, w1.script + [Join(e.Mate(), r)] + [Join(l, e)]);
    LinkedWords(w, w1, base, e, l, r);
    Args(w, base, [Ref(l), Ref(r)]);
    w', script := w4, [NewWire(e.wire), Join(e.Mate(), r), Join(l, e)];
    assert w4.script == w.script + script;
    LeadsJoin(b, l, r);
    c := LinkedBuild(w, b, e, l, r, script);
  }

  lemma LinkedWords(w: World, w1: World, base: seq<Value>, e: End, l: End, r: End)
    requires w.stack == base + [Ref(l), Ref(r)] && e.WireEnd? && ApplyPrim(w, LinkP) == Some(w1)
    requires w1.stack == w.stack + [Ref(e), Ref(e.Mate())]
    ensures ApplyPrims(w, [LinkP, RotP, ConnectP, ConnectP])
         == Some(World(w1.makers, w1.next, base, w1.script + [Join(e.Mate(), r)] + [Join(l, e)]))
  {
    hide ApplyPrim;
    var under := base + [Ref(l)];
    var w2 := w1.(stack := under + [Ref(e), Ref(e.Mate()), Ref(r)]);
    var w3 := w2.(stack := under + [Ref(e)]).Log(Join(e.Mate(), r));
    var w4 := w3.(stack := base).Log(Join(l, e));
    StackWords(w1, under, Ref(r), Ref(e), Ref(e.Mate()));
    assert w1.stack == under + [Ref(r), Ref(e), Ref(e.Mate())];
    assert w1 == w1.(stack := under + [Ref(r), Ref(e), Ref(e.Mate())]);
    assert w2.stack == (under + [Ref(e)]) + [Ref(e.Mate()), Ref(r)];
    Connects(w2, under + [Ref(e)], e.Mate(), r);
    assert w3.stack == base + [Ref(l), Ref(e)];
    Connects(w3, base, l, e);
    FirstPrim(w, LinkP, [RotP, ConnectP, ConnectP], w1);
    FirstPrim(w1, RotP, [ConnectP, ConnectP], w2);
    FirstPrim(w2, ConnectP, [ConnectP], w3);
    FirstPrim(w3, ConnectP, [], w4);
    assert [LinkP] + [RotP, ConnectP, ConnectP] == [LinkP, RotP, ConnectP, ConnectP];
    assert [RotP] + [ConnectP, ConnectP] == [RotP, ConnectP, ConnectP];
    assert [ConnectP] + [ConnectP] == [ConnectP, ConnectP] && [ConnectP] + [] == [ConnectP];
  }

  lemma LinkedBuild(w: World, b: Build, e: End, l: End, r: End, script: seq<Action>) returns (c: Build)
    requires b.makers == w.makers && b.next == w.next && e.WireEnd? && e.wire == Wire(b.makers, b.next)
    requires NamesLeft(b) && Matching(b.links) && l in b.free && r in b.free && l != r
    requires forall e :: e in b.free ==> e !in b.links
    requires forall e :: e in b.links && e.WireEnd? && e.wire.makers == b.makers ==> e.wire.k < b.next
    requires script == [NewWire(e.wire), Join(e.Mate(), r), Join(l, e)]
    ensures Leads(b, script, c)
    ensures c.free == b.free - {l, r} && c.nodes == b.nodes && SamePairing(c.links, Link(b.links, l, r))
  {
    var x, m := e.wire, e.Mate();
    var b1 := Perform(b, NewWire(x));
    LeadsOne(b, NewWire(x));
    LeadsJoin(b1, m, r);
    var b2 := b1.(free := b1.free - {m, r}, links := Link(b1.links, m, r));
    LeadsJoin(b2, l, e);
    c := b2.(free := b2.free - {l, e}, links := Link(b2.links, l, e));
    LeadsConcat(b, [NewWire(x)], b1, [Join(m, r)], b2);
    LeadsConcat(b, [NewWire(x)] + [Join(m, r)], b2, [Join(l, e)], c);
    assert [NewWire(x)] + [Join(m, r)] + [Join(l, e)] == script;
    assert c.free == b.free - {l, r};
    ThroughWire(b.links, e, l, r);
  }

  lemma ThroughWire(L: Links, e: End, l: End, r: End)
    requires Matching(L) && l !in L && r !in L && l != r && e.WireEnd? && e !in L && e.Mate() !in L
    requires e != l && e != r && e.Mate() != l && e.Mate() != r
    ensures SamePairing(Link(Link(L, e.Mate(), r), l, e), Link(L, l, r))
  {
    var M := Link(Link(L, e.Mate(), r), l, e);
    LinkMatching(L, e.Mate(), r);
    LinkMatching(Link(L, e.Mate(), r), l, e);
    LinkContracts(L, e, l, r);
    ContractSamePairing(M, e.wire);
  }

  lemma LinkContracts(L: Links, e: End, l: End, r: End)
    requires l !in L && r !in L && l != r && e.WireEnd? && e !in L && e.Mate() !in L
    requires e != l && e != r && e.Mate() != l && e.Mate() != r
    ensures var M := Link(Link(L, e.Mate(), r), l, e);
            Inner(M, e.wire) && Contract(M, e.wire) == Link(L, l, r)
  {
    var M := Link(Link(L, e.Mate(), r), l, e);
    assert M[e] == l && M[l] == e && M[e.Mate()] == r && M[r] == e.Mate() && e != e.Mate();
    assert Unlink(Unlink(M, e), e.Mate()) == L == Unlink(Unlink(M, e.Mate()), e);
  }

  // ----- Literals -----

  // An integer, or a name that stands for one.
  datatype Number = Written(text: string, n: int) | Named(name: string)

  predicate Stands(names: Names, x: Number) {
    match x
    case Written(text, _) => text != "end"
    case Named(name) => name != "end" && name != "(" && name in names && names[name].Int?
  }

  function TokenOf(x: Number): Token {
    match x case Written(text, n) => Token(Integer, text, n) case Named(name) => Token(Generic, name, 0)
  }

  function ValueOf(names: Names, x: Number): Value
    requires Stands(names, x)
  {
    match x case Written(_, n) => Int(n) case Named(name) => names[name]
  }

  // A body of integers and constants compiles, and running it leaves them on the stack, the last on top.
  lemma {:induction false} NumbersMean(source: seq<Definition>, bound: nat, names: Names, xs: seq<Number>, w: World)
    requires forall i :: 0 <= i < |xs| ==> Stands(names, xs[i])
    ensures Interpret(source, bound, names,
                      seq(|xs|, i requires 0 <= i < |xs| => TokenOf(xs[i])) + [Token(Generic, "end", 0)], map[], w)
         == Some(w.(stack := w.stack + seq(|xs|, i requires 0 <= i < |xs| => ValueOf(names, xs[i]))))
    decreases |xs|
  {
    var tokens := seq(|xs|, i requires 0 <= i < |xs| => TokenOf(xs[i])) + [Token(Generic, "end", 0)];
    if xs == [] {
      assert w.stack + [] == w.stack;
    } else {
      var ys := xs[1..];
      var rest := seq(|ys|, i requires 0 <= i < |ys| => TokenOf(ys[i])) + [Token(Generic, "end", 0)];
      var w' := w.Push(ValueOf(names, xs[0]));
      assert tokens[1..] == rest;
      NumbersMean(source, bound, names, ys, w');
      assert w'.stack + seq(|ys|, i requires 0 <= i < |ys| => ValueOf(names, ys[i]))
          == w.stack + seq(|xs|, i requires 0 <= i < |xs| => ValueOf(names, xs[i]));
    }
  }

  lemma NumbersRun(names: Names, xs: seq<Number>, w: World)
    requires (forall i :: 0 <= i < |xs| ==> Stands(names, xs[i])) && EarlierOnly(names, 0)
    ensures var tokens := seq(|xs|, i requires 0 <= i < |xs| => TokenOf(xs[i])) + [Token(Generic, "end", 0)];
            && CompileBody(names, tokens, map[]).Some?
            && Result(Run([], 0, CompileBody(names, tokens, map[]).value.opcodes, map[], w))
               == Some(w.(stack := w.stack + seq(|xs|, i requires 0 <= i < |xs| => ValueOf(names, xs[i]))))
  {
    hide Interpret, CompileBody, Run;
    var tokens := seq(|xs|, i requires 0 <= i < |xs| => TokenOf(xs[i])) + [Token(Generic, "end", 0)];
    NumbersMean([], 0, names, xs, w);
    InterpretedCompiles([], 0, names, tokens, map[], map[], w);
    BodyAgrees([], [], 0, names, tokens, map[], map[], map[], w);
  }
}
