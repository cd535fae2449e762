/**
 The allocator of nodes: one stack that all threads share under a mutex, a cache for each thread, and batches of new
 nodes when both are empty.  Nodes are their identifiers, counted from 1.
 */
module Allocator {
  import opened Machine
  import Scheduler

  datatype Phase =
    | Resting
    | Asking                                // entering `allocator_maybe_allocate`
    | RefillLock                            // its cache is empty, it wants the mutex
    | Refilling(moved: nat)
    | Taking                                // about to pop its cache
    | PrepareLock                           // there was nothing, it wants the mutex to make a batch
    | Preparing(made: nat)
    | Popped(node: nat)                     // about to mark the node as allocated
    | Cleaning(node: nat)                   // in `node_allocator_recycle`
    | Freeing(node: nat)                    // entering `allocator_free`
    | SpillLock(node: nat)                  // its cache is full, it wants the mutex
    | Spilling(node: nat, moved: nat)
    | Storing(node: nat)                    // about to push the node onto its cache

  // `held`: the nodes somebody uses; `flagged`: those whose flag is set; `made`: the array of all nodes.
  datatype State = State(
    cacheSize: nat, batchSize: nat, stack: seq<nat>, made: seq<nat>, caches: seq<seq<nat>>, phases: seq<Phase>,
    locked: Option<nat>, held: multiset<nat>, flagged: set<nat>)

  datatype Move = Allocate(worker: nat) | Recycle(worker: nat, node: nat) | Step(worker: nat)

  predicate WantsLock(phase: Phase) {
    phase.RefillLock? || phase.PrepareLock? || phase.SpillLock?
  }

  predicate HasLock(phase: Phase) {
    phase.Refilling? || phase.Preparing? || phase.Spilling?
  }

  // ----- The steps -----

  predicate Possible(s: State, m: Move) {
    && m.worker < |s.phases| == |s.caches|
    && match m
       case Allocate(w) => s.phases[w].Resting?
       case Recycle(w, n) => s.phases[w].Resting? && n in s.held
       case Step(w) =>
         && !s.phases[w].Resting?
         && (WantsLock(s.phases[w]) ==> s.locked.None?)
         && (s.phases[w].Spilling? && s.phases[w].moved < s.cacheSize ==> s.caches[w] != [])
  }

  // What one worker's step leaves: its own phase and cache, and what all share.
  datatype Change = Change(
    phase: Phase, cache: seq<nat>, stack: seq<nat>, made: seq<nat>, locked: Option<nat>, held: multiset<nat>,
    flagged: set<nat>)

  function Top(s: seq<nat>): nat
    requires s != []
  {
    s[|s| - 1]
  }

  function Pop(s: seq<nat>): seq<nat>
    requires s != []
  {
    s[..|s| - 1]
  }

  function Before(s: State, w: nat): Change
    requires w < |s.phases| == |s.caches|
  {
    Change(s.phases[w], s.caches[w], s.stack, s.made, s.locked, s.held, s.flagged)
  }

  function Stepped(cacheSize: nat, batchSize: nat, w: nat, c: Change): Change
    requires c.phase.Spilling? && c.phase.moved < cacheSize ==> c.cache != []
  {
    match c.phase
    case Resting => c
    case Asking => c.(phase := if c.cache == [] then RefillLock else Taking)
    case RefillLock => c.(phase := Refilling(0), locked := Some(w))
    case Refilling(i) =>
      if i < cacheSize && c.stack != []
      then c.(cache := c.cache + [Top(c.stack)], stack := Pop(c.stack), phase := Refilling(i + 1))
      else c.(phase := Taking, locked := None)
    case Taking =>
      if c.cache == [] then c.(phase := PrepareLock) else c.(cache := Pop(c.cache), phase := Popped(Top(c.cache)))
    case PrepareLock => c.(phase := Preparing(0), locked := Some(w))
    case Preparing(i) =>
      if i < batchSize
      then c.(stack := c.stack + [|c.made| + 1], made := c.made + [|c.made| + 1], phase := Preparing(i + 1))
      else c.(phase := Asking, locked := None)
    case Popped(n) => c.(phase := Resting, held := c.held + multiset{n}, flagged := c.flagged + {n})
    case Cleaning(n) => c.(phase := Freeing(n), flagged := c.flagged - {n})
    case Freeing(n) => c.(phase := if |c.cache| >= 2 * cacheSize then SpillLock(n) else Storing(n))
    case SpillLock(n) => c.(phase := Spilling(n, 0), locked := Some(w))
    case Spilling(n, i) =>
      if i < cacheSize
      then c.(cache := Pop(c.cache), stack := c.stack + [Top(c.cache)], phase := Spilling(n, i + 1))
      else c.(phase := Storing(n), locked := None)
    case Storing(n) => c.(cache := c.cache + [n], phase := Resting)
  }

  function After(s: State, m: Move): Change
    requires Possible(s, m)
  {
    var c := Before(s, m.worker);
    match m
    case Allocate(_) => c.(phase := Asking)
    case Recycle(_, n) => c.(phase := Cleaning(n), held := c.held - multiset{n})
    case Step(w) => Stepped(s.cacheSize, s.batchSize, w, c)
  }

  function Next(s: State, m: Move): State
    requires Possible(s, m)
  {
    var w, c := m.worker, After(s, m);
    State(s.cacheSize, s.batchSize, c.stack, c.made, s.caches[w := c.cache], s.phases[w := c.phase], c.locked, c.held,
          c.flagged)
  }

  ghost predicate Runs(s: State, moves: seq<Move>, last: State)
    decreases |moves|
  {
    if moves == [] then s == last
    else Possible(s, moves[0]) && Runs(Next(s, moves[0]), moves[1..], last)
  }

  // ----- Every node in one place -----

  // The node a worker has in its hands.
  function Hand(phase: Phase): multiset<nat> {
    if phase.Popped? || phase.Cleaning? || phase.Freeing? || phase.SpillLock? || phase.Spilling? || phase.Storing?
    then multiset{phase.node} else multiset{}
  }

  function Hands(phases: seq<Phase>): multiset<nat> {
    if phases == [] then multiset{} else Hand(phases[0]) + Hands(phases[1..])
  }

  lemma {:induction false} HandsUpdate(phases: seq<Phase>, i: nat, phase: Phase)
    requires i < |phases|
    ensures Hands(phases[i := phase]) + Hand(phases[i]) == Hands(phases) + Hand(phase)
    decreases |phases|
  {
    if i == 0 {
      assert phases[i := phase][1..] == phases[1..];
    } else {
      hide Hand;
      assert phases[i := phase][1..] == phases[1..][i - 1 := phase];
      HandsUpdate(phases[1..], i - 1, phase);
      Scheduler.Prefixed(Hand(phases[0]), Hands(phases[1..][i - 1 := phase]), Hand(phases[i]), Hands(phases[1..]),
                         Hand(phase));
    }
  }

  // Everywhere a node can be, counted together.
  ghost function Places(s: State): multiset<nat> {
    multiset(s.stack) + Scheduler.Queued(s.caches) + Hands(s.phases) + s.held
  }

  // The nodes made are 1, 2, and so on; each is in exactly one place.
  ghost predicate Conserved(s: State) {
    && (forall i :: 0 <= i < |s.made| ==> s.made[i] == i + 1)
    && forall n: nat :: Places(s)[n] == if 1 <= n <= |s.made| then 1 else 0
  }

  // ----- The invariant -----

  predicate WorkerOk(cacheSize: nat, cache: seq<nat>, phase: Phase) {
    && |cache| <= 2 * cacheSize
    && (phase.RefillLock? || phase.PrepareLock? || phase.Preparing? ==> cache == [])
    && (phase.Refilling? ==> |cache| == phase.moved <= cacheSize)
    && (phase.SpillLock? ==> |cache| == 2 * cacheSize)
    && (phase.Spilling? ==> phase.moved <= cacheSize && |cache| == 2 * cacheSize - phase.moved)
    && (phase.Storing? ==> |cache| < 2 * cacheSize)
  }

  ghost predicate WorkersOk(s: State) {
    && |s.phases| == |s.caches| && s.cacheSize > 0
    && forall w :: 0 <= w < |s.phases| ==> WorkerOk(s.cacheSize, s.caches[w], s.phases[w])
  }

  ghost predicate LockOk(s: State) {
    && (s.locked.Some? ==> s.locked.value < |s.phases|)
    && forall w :: 0 <= w < |s.phases| ==> (HasLock(s.phases[w]) <==> s.locked == Some(w))
  }

  // The flag is set on the nodes in use, and on those about to be cleaned.
  ghost predicate FlagsOk(s: State) {
    forall n :: n in s.flagged <==> n in s.held || exists w :: 0 <= w < |s.phases| && s.phases[w] == Cleaning(n)
  }

  ghost predicate Ok(s: State) {
    WorkersOk(s) && LockOk(s) && FlagsOk(s) && Conserved(s)
  }

  lemma WorkersKeep(s: State, m: Move)
    requires WorkersOk(s) && Possible(s, m)
    ensures WorkersOk(Next(s, m))
  {
    hide Next, WorkerOk;
    var w, c := m.worker, After(s, m);
    assert WorkerOk(s.cacheSize, s.caches[w], s.phases[w]);
    WorkerKeeps(s, m);
    assert WorkerOk(s.cacheSize, c.cache, c.phase);
    NextParts(s, m);
  }

  lemma WorkerKeeps(s: State, m: Move)
    requires Possible(s, m) && s.cacheSize > 0 && WorkerOk(s.cacheSize, s.caches[m.worker], s.phases[m.worker])
    ensures WorkerOk(s.cacheSize, After(s, m).cache, After(s, m).phase)
  {
  }

  lemma NextParts(s: State, m: Move)
    requires Possible(s, m)
    ensures var s', c, w := Next(s, m), After(s, m), m.worker;
            && s'.cacheSize == s.cacheSize && s'.phases == s.phases[w := c.phase] && s'.caches == s.caches[w := c.cache]
            && s'.stack == c.stack && s'.made == c.made && s'.locked == c.locked && s'.held == c.held
            && s'.flagged == c.flagged
  {
  }

  lemma LockKeeps(s: State, m: Move)
    requires LockOk(s) && Possible(s, m)
    ensures LockOk(Next(s, m))
  {
    hide Next, After, HasLock;
    LockMoves(s, m);
    NextParts(s, m);
  }

  lemma LockMoves(s: State, m: Move)
    requires Possible(s, m) && (HasLock(s.phases[m.worker]) <==> s.locked == Some(m.worker))
    ensures var c := After(s, m);
            && (HasLock(c.phase) <==> c.locked == Some(m.worker))
            && (c.locked != s.locked ==>
                  (s.locked.None? && c.locked == Some(m.worker)) || (s.locked == Some(m.worker) && c.locked.None?))
  {
  }

  // A node in somebody's hands is nowhere else.
  lemma InHandOnce(s: State, w: nat, n: nat)
    requires Conserved(s) && w < |s.phases| && n in Hand(s.phases[w])
    ensures n !in s.held && forall v :: 0 <= v < |s.phases| && v != w ==> n !in Hand(s.phases[v])
  {
    hide Hand, Scheduler.Queued;
    HandsAtLeast(s.phases, w, n);
    assert Places(s)[n] <= 1;
    forall v | 0 <= v < |s.phases| && v != w
      ensures n !in Hand(s.phases[v])
    {
      HandsOther(s.phases, w, v, n);
    }
  }

  lemma {:induction false} HandsAtLeast(phases: seq<Phase>, w: nat, n: nat)
    requires w < |phases|
    ensures Hands(phases)[n] >= Hand(phases[w])[n]
    decreases |phases|
  {
    hide Hand;
    if w > 0 {
      HandsAtLeast(phases[1..], w - 1, n);
    }
  }

  lemma {:induction false} HandsOther(phases: seq<Phase>, w: nat, v: nat, n: nat)
    requires w < |phases| && v < |phases| && v != w
    ensures Hands(phases)[n] >= Hand(phases[w])[n] + Hand(phases[v])[n]
    decreases |phases|
  {
    hide Hand;
    if w == 0 {
      HandsAtLeast(phases[1..], v - 1, n);
    } else if v == 0 {
      HandsAtLeast(phases[1..], w - 1, n);
    } else {
      HandsOther(phases[1..], w - 1, v - 1, n);
    }
  }

  lemma HeldOnce(s: State, n: nat)
    requires Conserved(s)
    ensures s.held[n] <= 1
  {
    hide Hands, Scheduler.Queued;
    assert Places(s)[n] <= 1;
  }

  lemma FlagsKeep(s: State, m: Move)
    requires FlagsOk(s) && Conserved(s) && Possible(s, m)
    ensures FlagsOk(Next(s, m))
  {
    hide Conserved, Next, After;
    var s', c, w := Next(s, m), After(s, m), m.worker;
    NextParts(s, m);
    forall n
      ensures n in s'.flagged <==> n in s'.held || exists v :: 0 <= v < |s'.phases| && s'.phases[v] == Cleaning(n)
    {
      FlagMoves(s, m, n);
      if v :| 0 <= v < |s.phases| && v != w && s.phases[v] == Cleaning(n) {
        assert s'.phases[v] == Cleaning(n);
      }
      if v :| 0 <= v < |s.phases| && v != w && s'.phases[v] == Cleaning(n) {
        assert s.phases[v] == Cleaning(n);
      }
      if c.phase == Cleaning(n) {
        assert s'.phases[w] == Cleaning(n);
      }
    }
  }

  // Whether another worker is cleaning the node.
  ghost predicate Elsewhere(phases: seq<Phase>, w: nat, n: nat) {
    exists v :: 0 <= v < |phases| && v != w && phases[v] == Cleaning(n)
  }

  ghost predicate FlagOk(c: Change, n: nat, elsewhere: bool) {
    n in c.flagged <==> n in c.held || c.phase == Cleaning(n) || elsewhere
  }

  lemma FlagMoves(s: State, m: Move, n: nat)
    requires FlagsOk(s) && Conserved(s) && Possible(s, m)
    ensures FlagOk(After(s, m), n, Elsewhere(s.phases, m.worker, n))
  {
    hide Conserved, Hand, Stepped;
    var c, w := Before(s, m.worker), m.worker;
    HeldOnce(s, n);
    if n in Hand(s.phases[w]) {
      InHandOnce(s, w, n);
    }
    CleaningInHand(s, n);
    assert FlagOk(c, n, Elsewhere(s.phases, w, n));
    if m.Step? {
      FlagSteps(s.cacheSize, s.batchSize, w, c, n, Elsewhere(s.phases, w, n));
    }
  }

  lemma CleaningInHand(s: State, n: nat)
    requires Conserved(s)
    ensures forall v :: 0 <= v < |s.phases| && s.phases[v] == Cleaning(n) ==> n in Hand(s.phases[v]) && n !in s.held
  {
    forall v | 0 <= v < |s.phases| && s.phases[v] == Cleaning(n)
      ensures n !in s.held
    {
      InHandOnce(s, v, n);
    }
  }

  lemma FlagSteps(cacheSize: nat, batchSize: nat, w: nat, c: Change, n: nat, elsewhere: bool)
    requires c.phase.Spilling? && c.phase.moved < cacheSize ==> c.cache != []
    requires FlagOk(c, n, elsewhere) && (n in Hand(c.phase) ==> n !in c.held && !elsewhere)
    ensures FlagOk(Stepped(cacheSize, batchSize, w, c), n, elsewhere)
  {
  }

  // One worker's change of hands, cache, shared stack and use that moves nothing out of sight.
  lemma PlacesKeep(s: State, s': State, w: nat, extra: multiset<nat>)
    requires w < |s.phases| == |s.caches| && |s'.phases| == |s'.caches| == |s.phases|
    requires s'.phases == s.phases[w := s'.phases[w]] && s'.caches == s.caches[w := s'.caches[w]]
    requires multiset(s'.stack) + multiset(s'.caches[w]) + Hand(s'.phases[w]) + s'.held
          == multiset(s.stack) + multiset(s.caches[w]) + Hand(s.phases[w]) + s.held + extra
    ensures Places(s') == Places(s) + extra
  {
    hide Scheduler.Queued, Hands, Hand;
    HandsUpdate(s.phases, w, s'.phases[w]);
    Scheduler.QueuedUpdate(s.caches, w, s'.caches[w]);
    forall n
      ensures Places(s')[n] == (Places(s) + extra)[n]
    {
      assert (Hands(s'.phases) + Hand(s.phases[w]))[n] == (Hands(s.phases) + Hand(s'.phases[w]))[n];
      assert (Scheduler.Queued(s'.caches) + multiset(s.caches[w]))[n]
             == (Scheduler.Queued(s.caches) + multiset(s'.caches[w]))[n];
      assert (multiset(s'.stack) + multiset(s'.caches[w]) + Hand(s'.phases[w]) + s'.held)[n]
          == (multiset(s.stack) + multiset(s.caches[w]) + Hand(s.phases[w]) + s.held + extra)[n];
    }
  }

  lemma Popping(s: seq<nat>)
    requires s != []
    ensures multiset(s) == multiset(Pop(s)) + multiset{Top(s)}
  {
    assert s == Pop(s) + [Top(s)];
  }

  lemma Pushing(s: seq<nat>, n: nat)
    ensures multiset(s + [n]) == multiset(s) + multiset{n}
  {
  }

  lemma ConservedKeeps(s: State, m: Move)
    requires Conserved(s) && Possible(s, m)
    ensures Conserved(Next(s, m))
  {
    hide Places, Next;
    PlacesMove(s, m);
  }

  // What a move does to the places of all nodes: a new node is on the shared stack.
  lemma PlacesMove(s: State, m: Move)
    requires Possible(s, m)
    ensures var s' := Next(s, m);
            || (s'.made == s.made && Places(s') == Places(s))
            || (s'.made == s.made + [|s.made| + 1] && Places(s') == Places(s) + multiset{|s.made| + 1})
  {
    hide Places, After, Next, Hand;
    var c := After(s, m);
    var extra := if |c.made| > |s.made| then multiset{|s.made| + 1} else multiset{};
    NextParts(s, m);
    OwnChange(s, m, extra);
    PlacesKeep(s, Next(s, m), m.worker, extra);
    assert Places(s) + multiset{} == Places(s);
  }

  lemma OwnChange(s: State, m: Move, extra: multiset<nat>)
    requires Possible(s, m)
    requires extra == if |After(s, m).made| > |s.made| then multiset{|s.made| + 1} else multiset{}
    ensures var c := After(s, m);
            && (c.made == s.made || c.made == s.made + [|s.made| + 1])
            && multiset(c.stack) + multiset(c.cache) + Hand(c.phase) + c.held
            == multiset(s.stack) + multiset(s.caches[m.worker]) + Hand(s.phases[m.worker]) + s.held + extra
  {
    hide Stepped;
    if m.Step? {
      SteppedChange(s.cacheSize, s.batchSize, m.worker, Before(s, m.worker), extra);
    }
  }

  // Everything in one worker's reach.
  function Count(c: Change, x: nat): nat {
    multiset(c.stack)[x] + multiset(c.cache)[x] + Hand(c.phase)[x] + c.held[x]
  }

  lemma RefillCounts(cacheSize: nat, batchSize: nat, w: nat, c: Change, x: nat)
    requires c.phase.Refilling?
    ensures var c' := Stepped(cacheSize, batchSize, w, c); c'.made == c.made && Count(c', x) == Count(c, x)
  {
    hide Top, Pop;
    if c.stack != [] {
      Popping(c.stack);
      Pushing(c.cache, Top(c.stack));
    }
  }

  lemma TakeCounts(cacheSize: nat, batchSize: nat, w: nat, c: Change, x: nat)
    requires c.phase.Taking?
    ensures var c' := Stepped(cacheSize, batchSize, w, c); c'.made == c.made && Count(c', x) == Count(c, x)
  {
    hide Top, Pop;
    if c.cache != [] {
      Popping(c.cache);
    }
  }

  lemma SpillCounts(cacheSize: nat, batchSize: nat, w: nat, c: Change, x: nat)
    requires c.phase.Spilling? && (c.phase.moved < cacheSize ==> c.cache != [])
    ensures var c' := Stepped(cacheSize, batchSize, w, c); c'.made == c.made && Count(c', x) == Count(c, x)
  {
    hide Top, Pop;
    if c.cache != [] {
      Popping(c.cache);
      Pushing(c.stack, Top(c.cache));
    }
  }

  lemma StoreCounts(cacheSize: nat, batchSize: nat, w: nat, c: Change, x: nat)
    requires c.phase.Storing?
    ensures var c' := Stepped(cacheSize, batchSize, w, c); c'.made == c.made && Count(c', x) == Count(c, x)
  {
    Pushing(c.cache, c.phase.node);
  }

  lemma PrepareCounts(cacheSize: nat, batchSize: nat, w: nat, c: Change, x: nat)
    requires c.phase.Preparing?
    ensures var c' := Stepped(cacheSize, batchSize, w, c);
            if c.phase.made < batchSize
            then c'.made == c.made + [|c.made| + 1] && Count(c', x) == Count(c, x) + multiset{|c.made| + 1}[x]
            else c'.made == c.made && Count(c', x) == Count(c, x)
  {
    Pushing(c.stack, |c.made| + 1);
  }

  lemma OtherCounts(cacheSize: nat, batchSize: nat, w: nat, c: Change, x: nat)
    requires !c.phase.Refilling? && !c.phase.Taking? && !c.phase.Spilling? && !c.phase.Storing? && !c.phase.Preparing?
    ensures var c' := Stepped(cacheSize, batchSize, w, c); c'.made == c.made && Count(c', x) == Count(c, x)
  {
  }

  lemma SteppedCounts(cacheSize: nat, batchSize: nat, w: nat, c: Change, x: nat)
    requires c.phase.Spilling? && c.phase.moved < cacheSize ==> c.cache != []
    ensures var c' := Stepped(cacheSize, batchSize, w, c);
            || (c'.made == c.made && Count(c', x) == Count(c, x))
            || (c'.made == c.made + [|c.made| + 1] && Count(c', x) == Count(c, x) + multiset{|c.made| + 1}[x])
  {
    hide Stepped, Count;
    match c.phase
    case Refilling(_) => RefillCounts(cacheSize, batchSize, w, c, x);
    case Taking => TakeCounts(cacheSize, batchSize, w, c, x);
    case Preparing(_) => PrepareCounts(cacheSize, batchSize, w, c, x);
    case Spilling(_, _) => SpillCounts(cacheSize, batchSize, w, c, x);
    case Storing(_) => StoreCounts(cacheSize, batchSize, w, c, x);
    case _ => OtherCounts(cacheSize, batchSize, w, c, x);
  }

  lemma SteppedChange(cacheSize: nat, batchSize: nat, w: nat, c: Change, extra: multiset<nat>)
    requires c.phase.Spilling? && c.phase.moved < cacheSize ==> c.cache != []
    requires var c' := Stepped(cacheSize, batchSize, w, c);
             extra == if |c'.made| > |c.made| then multiset{|c.made| + 1} else multiset{}
    ensures var c' := Stepped(cacheSize, batchSize, w, c);
            && (c'.made == c.made || c'.made == c.made + [|c.made| + 1])
            && multiset(c'.stack) + multiset(c'.cache) + Hand(c'.phase) + c'.held
            == multiset(c.stack) + multiset(c.cache) + Hand(c.phase) + c.held + extra
  {
    hide Stepped, Hand;
    var c' := Stepped(cacheSize, batchSize, w, c);
    SteppedCounts(cacheSize, batchSize, w, c, 0);
    forall x: nat
      ensures (multiset(c'.stack) + multiset(c'.cache) + Hand(c'.phase) + c'.held)[x]
           == (multiset(c.stack) + multiset(c.cache) + Hand(c.phase) + c.held + extra)[x]
    {
      SteppedCounts(cacheSize, batchSize, w, c, x);
      assert Count(c', x) == Count(c, x) + extra[x];
    }
  }

  lemma {:induction false} RunKeeps(s: State, moves: seq<Move>, last: State)
    requires Ok(s) && Runs(s, moves, last)
    ensures Ok(last)
    decreases |moves|
  {
    hide WorkersOk, LockOk, FlagsOk, Conserved, Next, Possible;
    if moves != [] {
      WorkersKeep(s, moves[0]);
      LockKeeps(s, moves[0]);
      FlagsKeep(s, moves[0]);
      ConservedKeeps(s, moves[0]);
      RunKeeps(Next(s, moves[0]), moves[1..], last);
    }
  }

  // ----- The beginning -----

  // `node_allocator_new` makes one batch.
  function Begun(cacheSize: nat, batchSize: nat, count: nat): State {
    var batch := seq(batchSize, i requires 0 <= i < batchSize => i + 1);
    State(cacheSize, batchSize, batch, batch, seq(count, i => []), seq(count, i => Resting), None, multiset{}, {})
  }

  lemma {:induction false} BatchOnce(k: nat, n: nat)
    ensures multiset(seq(k, i requires 0 <= i < k => i + 1))[n] == if 1 <= n <= k then 1 else 0
    decreases k
  {
    if k > 0 {
      var batch, less := seq(k, i requires 0 <= i < k => i + 1), seq(k - 1, i requires 0 <= i < k - 1 => i + 1);
      assert batch == less + [k];
      BatchOnce(k - 1, n);
    }
  }

  lemma {:induction false} NothingQueued(k: nat)
    ensures Scheduler.Queued(seq(k, i => [])) == multiset{} && Hands(seq(k, i => Resting)) == multiset{}
    decreases k
  {
    if k > 0 {
      var none: seq<seq<nat>>, less: seq<seq<nat>> := seq(k, i => []), seq(k - 1, i => []);
      var rest, fewer := seq(k, i => Resting), seq(k - 1, i => Resting);
      assert none[1..] == less && rest[1..] == fewer;
      NothingQueued(k - 1);
    }
  }

  lemma BegunOk(cacheSize: nat, batchSize: nat, count: nat)
    requires cacheSize > 0
    ensures Ok(Begun(cacheSize, batchSize, count))
  {
    var s := Begun(cacheSize, batchSize, count);
    NothingQueued(count);
    hide Hands, Scheduler.Queued;
    forall n: nat
      ensures Places(s)[n] == if 1 <= n <= |s.made| then 1 else 0
    {
      BatchOnce(batchSize, n);
    }
  }

  // ----- What holds at any time, whatever the threads have done -----

  ghost predicate Reachable(s: State) {
    exists cacheSize: nat, batchSize: nat, count: nat, moves ::
      cacheSize > 0 && Runs(Begun(cacheSize, batchSize, count), moves, s)
  }

  lemma ReachableOk(s: State)
    requires Reachable(s)
    ensures Ok(s)
  {
    hide Ok, Runs;
    var cacheSize: nat, batchSize: nat, count: nat, moves :|
      cacheSize > 0 && Runs(Begun(cacheSize, batchSize, count), moves, s);
    BegunOk(cacheSize, batchSize, count);
    RunKeeps(Begun(cacheSize, batchSize, count), moves, s);
  }

  // Every node made is in exactly one place: the shared stack, a cache, the hands of a thread, or in use.
  lemma OnePlace(s: State, n: nat)
    requires Reachable(s)
    ensures multiset(s.stack)[n] + Scheduler.Queued(s.caches)[n] + Hands(s.phases)[n] + s.held[n]
         == if n in s.made then 1 else 0
  {
    ReachableOk(s);
    hide Hands, Scheduler.Queued;
    assert Places(s)[n] == if 1 <= n <= |s.made| then 1 else 0;
    if 1 <= n <= |s.made| {
      assert s.made[n - 1] == n;
    }
  }

  // A node that is handed out is not in use already.
  lemma NotTwice(s: State, w: nat)
    requires Reachable(s) && Possible(s, Step(w)) && s.phases[w].Popped?
    ensures s.phases[w].node !in s.held && s.phases[w].node in s.made
  {
    ReachableOk(s);
    var n := s.phases[w].node;
    InHandOnce(s, w, n);
    HandsAtLeast(s.phases, w, n);
    OnePlace(s, n);
  }

  // No cache is ever larger than twice the cache size, and only one thread at a time has the mutex.
  lemma Bounded(s: State)
    requires Reachable(s)
    ensures forall w :: 0 <= w < |s.caches| ==> |s.caches[w]| <= 2 * s.cacheSize
    ensures forall v, w :: 0 <= v < |s.phases| && 0 <= w < |s.phases| ==>
              HasLock(s.phases[v]) && HasLock(s.phases[w]) ==> v == w
  {
    ReachableOk(s);
    forall w | 0 <= w < |s.caches|
      ensures |s.caches[w]| <= 2 * s.cacheSize
    {
      assert WorkerOk(s.cacheSize, s.caches[w], s.phases[w]);
    }
  }

  // When no thread is allocating or recycling, the flags say which nodes are in use.
  lemma FlagsAtRest(s: State, n: nat)
    requires Reachable(s) && forall w :: 0 <= w < |s.phases| ==> s.phases[w].Resting?
    ensures n in s.flagged <==> n in s.held
    ensures n in s.held ==> n in s.made
  {
    ReachableOk(s);
    OnePlace(s, n);
  }

  // A thread at work can go on, or wait for one that can.
  lemma Progress(s: State, w: nat) returns (v: nat)
    requires Reachable(s) && w < |s.phases| && !s.phases[w].Resting?
    ensures Possible(s, Step(v)) && (v == w || s.locked == Some(v))
  {
    ReachableOk(s);
    v := if WantsLock(s.phases[w]) && s.locked.Some? then s.locked.value else w;
    assert WorkerOk(s.cacheSize, s.caches[v], s.phases[v]);
  }
}
