/**
 What one call to the allocator does, whatever the other threads do meanwhile.
 */
module AllocatorCalls {
  import Machine
  import opened Allocator
  import Scheduler

  // Moves of any threads until thread `w` is at rest for the first time.
  ghost predicate UntilRest(s: State, w: nat, moves: seq<Move>, last: State)
    decreases |moves|
  {
    && w < |s.phases|
    && if s.phases[w].Resting? then moves == [] && s == last
       else moves != [] && Possible(s, moves[0]) && UntilRest(Next(s, moves[0]), w, moves[1..], last)
  }

  // What the moves of thread `w` put into use, and what they took out of use.
  ghost function Gained(s: State, moves: seq<Move>, w: nat): multiset<nat>
    decreases |moves|
  {
    if moves == [] || !Possible(s, moves[0]) then multiset{}
    else
      (if moves[0].worker == w then After(s, moves[0]).held - s.held else multiset{})
      + Gained(Next(s, moves[0]), moves[1..], w)
  }

  ghost function Lost(s: State, moves: seq<Move>, w: nat): multiset<nat>
    decreases |moves|
  {
    if moves == [] || !Possible(s, moves[0]) then multiset{}
    else
      (if moves[0].worker == w then s.held - After(s, moves[0]).held else multiset{})
      + Lost(Next(s, moves[0]), moves[1..], w)
  }

  function OwnSteps(moves: seq<Move>, w: nat): nat {
    if moves == [] then 0 else (if moves[0].worker == w then 1 else 0) + OwnSteps(moves[1..], w)
  }

  lemma OthersMove(s: State, m: Move, w: nat)
    requires Possible(s, m) && w < |s.phases| && m.worker != w
    ensures Next(s, m).phases[w] == s.phases[w] && Next(s, m).caches[w] == s.caches[w]
    ensures Next(s, m).cacheSize == s.cacheSize && |Next(s, m).phases| == |s.phases|
  {
    hide After;
  }

  lemma OwnMove(s: State, w: nat)
    requires Possible(s, Step(w))
    ensures var s', c := Next(s, Step(w)), Stepped(s.cacheSize, s.batchSize, w, Before(s, w));
            && s'.phases[w] == c.phase && s'.caches[w] == c.cache && s'.held == c.held && s'.flagged == c.flagged
            && s'.cacheSize == s.cacheSize && |s'.phases| == |s.phases| && After(s, Step(w)) == c
            && s'.stack == c.stack && s'.made == c.made && s'.locked == c.locked && s'.batchSize == s.batchSize
  {
    hide Stepped;
  }

  lemma OkNext(s: State, m: Move)
    requires Ok(s) && Possible(s, m)
    ensures Ok(Next(s, m))
  {
    hide Next, Possible;
    WorkersKeep(s, m);
    LockKeeps(s, m);
    FlagsKeep(s, m);
    ConservedKeeps(s, m);
  }

  lemma WithinThreads(s: State, m: Move)
    requires Possible(s, m)
    ensures m.worker < |s.phases| == |s.caches|
  {
  }

  // ----- Recycling -----

  // What is left of the cache before the node goes on top: half of it when it was full.
  function Spilled(cache: seq<nat>, cacheSize: nat): seq<nat> {
    if |cache| >= 2 * cacheSize then cache[..|cache| - cacheSize] else cache
  }

  // Where a thread is in recycling `n`, having begun with `cache`.
  predicate Recycling(cacheSize: nat, cache: seq<nat>, n: nat, phase: Phase, now: seq<nat>) {
    match phase
    case Cleaning(k) => k == n && now == cache
    case Freeing(k) => k == n && now == cache
    case SpillLock(k) => k == n && now == cache && |cache| >= 2 * cacheSize
    case Spilling(k, i) => k == n && |cache| >= 2 * cacheSize && i <= cacheSize && now == cache[..|cache| - i]
    case Storing(k) => k == n && now == Spilled(cache, cacheSize)
    case Resting => now == Spilled(cache, cacheSize) + [n]
    case _ => false
  }

  function RecyclingLeft(cacheSize: nat, cache: seq<nat>, phase: Phase): int {
    match phase
    case Cleaning(_) => if |cache| >= 2 * cacheSize then cacheSize + 5 else 3
    case Freeing(_) => if |cache| >= 2 * cacheSize then cacheSize + 4 else 2
    case SpillLock(_) => cacheSize + 3
    case Spilling(_, i) => cacheSize - i + 2
    case Storing(_) => 1
    case _ => 0
  }

  lemma RecyclingStep(cacheSize: nat, batchSize: nat, w: nat, cache: seq<nat>, n: nat, c: Change)
    requires Recycling(cacheSize, cache, n, c.phase, c.cache) && !c.phase.Resting?
    requires c.phase.Spilling? && c.phase.moved < cacheSize ==> c.cache != []
    ensures var c' := Stepped(cacheSize, batchSize, w, c);
            && Recycling(cacheSize, cache, n, c'.phase, c'.cache) && c'.held == c.held
            && RecyclingLeft(cacheSize, cache, c'.phase) == RecyclingLeft(cacheSize, cache, c.phase) - 1
  {
  }

  lemma {:induction false} RecyclingOn(s: State, w: nat, cache: seq<nat>, n: nat, moves: seq<Move>, last: State)
    requires Ok(s) && UntilRest(s, w, moves, last) && Recycling(s.cacheSize, cache, n, s.phases[w], s.caches[w])
    ensures Ok(last) && w < |last.phases| == |last.caches| && last.phases[w].Resting?
    ensures last.caches[w] == Spilled(cache, s.cacheSize) + [n]
    ensures Gained(s, moves, w) == Lost(s, moves, w) == multiset{}
    ensures OwnSteps(moves, w) == RecyclingLeft(s.cacheSize, cache, s.phases[w])
    decreases |moves|
  {
    hide Ok, Next, Possible, After, Stepped, Recycling, RecyclingLeft, Spilled;
    BothLists(s);
    if moves == [] {
      AtRest(s, w, cache, n);
    } else {
      var m := moves[0];
      OkNext(s, m);
      if m.worker == w {
        OnlySteps(s, m);
        OwnMove(s, w);
        MaySpill(s, w);
        RecyclingStep(s.cacheSize, s.batchSize, w, cache, n, Before(s, w));
        BeforeIs(s, w);
        RecyclingOn(Next(s, m), w, cache, n, moves[1..], last);
      } else {
        OthersMove(s, m, w);
        RecyclingOn(Next(s, m), w, cache, n, moves[1..], last);
      }
    }
  }

  lemma BothLists(s: State)
    requires Ok(s)
    ensures |s.phases| == |s.caches| && s.cacheSize > 0
  {
    hide FlagsOk, LockOk, Conserved;
  }

  lemma BeforeIs(s: State, w: nat)
    requires w < |s.phases| == |s.caches|
    ensures Before(s, w).phase == s.phases[w] && Before(s, w).cache == s.caches[w] && Before(s, w).held == s.held
  {
  }

  lemma MaySpill(s: State, w: nat)
    requires Possible(s, Step(w))
    ensures s.phases[w].Spilling? && s.phases[w].moved < s.cacheSize ==> s.caches[w] != []
    ensures !s.phases[w].Resting?
  {
  }

  // A thread in the middle of a call makes no other.
  lemma OnlySteps(s: State, m: Move)
    requires Possible(s, m) && !s.phases[m.worker].Resting?
    ensures m == Step(m.worker)
  {
  }

  lemma AtRest(s: State, w: nat, cache: seq<nat>, n: nat)
    requires w < |s.phases| == |s.caches| && s.phases[w].Resting?
    requires Recycling(s.cacheSize, cache, n, s.phases[w], s.caches[w])
    ensures s.caches[w] == Spilled(cache, s.cacheSize) + [n] && RecyclingLeft(s.cacheSize, cache, s.phases[w]) == 0
  {
  }

  lemma RecycleStarts(s: State, w: nat, n: nat)
    requires Possible(s, Recycle(w, n))
    ensures var s' := Next(s, Recycle(w, n));
            && s'.phases[w] == Cleaning(n) && s'.caches[w] == s.caches[w] && s'.cacheSize == s.cacheSize
            && |s'.phases| == |s.phases| && After(s, Recycle(w, n)).held == s.held - multiset{n}
  {
  }

  // When a thread is at rest again after it has recycled a node, the node is on top of its cache, in use nowhere and
  // not marked; the call has taken that node out of use and no other, and a number of steps that only depends on
  // whether the cache was full.
  lemma RecycleDoes(s: State, w: nat, n: nat, moves: seq<Move>, last: State)
    requires Reachable(s) && Possible(s, Recycle(w, n)) && UntilRest(Next(s, Recycle(w, n)), w, moves, last)
    ensures w < |last.caches| && last.caches[w] == Spilled(s.caches[w], s.cacheSize) + [n]
    ensures n !in last.held && n !in last.flagged
    ensures Gained(s, [Recycle(w, n)] + moves, w) == multiset{} && Lost(s, [Recycle(w, n)] + moves, w) == multiset{n}
    ensures OwnSteps(moves, w) == if |s.caches[w]| >= 2 * s.cacheSize then s.cacheSize + 5 else 3
  {
    hide Ok, Next, Possible, After, Reachable, UntilRest, Conserved;
    ReachableOk(s);
    BothLists(s);
    WithinThreads(s, Recycle(w, n));
    OkNext(s, Recycle(w, n));
    RecycleStarts(s, w, n);
    RecyclingOn(Next(s, Recycle(w, n)), w, s.caches[w], n, moves, last);
    assert ([Recycle(w, n)] + moves)[1..] == moves;
    assert last.caches[w][|last.caches[w]| - 1] == n;
    InUse(s, w, n);
    Stored(last, w, n);
  }

  lemma InUse(s: State, w: nat, n: nat)
    requires Possible(s, Recycle(w, n))
    ensures s.held - (s.held - multiset{n}) == multiset{n} && s.held - multiset{n} - s.held == multiset{}
  {
    assert multiset{n} <= s.held;
    forall k
      ensures (s.held - (s.held - multiset{n}))[k] == multiset{n}[k]
    {
      assert (s.held - multiset{n})[k] == s.held[k] - multiset{n}[k];
    }
  }

  lemma Stored(s: State, w: nat, n: nat)
    requires Ok(s) && w < |s.caches| && n in s.caches[w]
    ensures n !in s.held && n !in s.flagged
  {
    hide WorkersOk, LockOk, Hands, Hand, Scheduler.Queued;
    InCache(s.caches, w, n);
    assert Places(s)[n] <= 1;
    forall v | 0 <= v < |s.phases| && s.phases[v] == Cleaning(n)
      ensures false
    {
      HandsAtLeast(s.phases, v, n);
      HandOf(n);
    }
  }

  lemma HandOf(n: nat)
    ensures Hand(Cleaning(n))[n] == 1
  {
  }

  lemma {:induction false} InCache(caches: seq<seq<nat>>, w: nat, n: nat)
    requires w < |caches| && n in caches[w]
    ensures Scheduler.Queued(caches)[n] >= 1
    decreases |caches|
  {
    if w == 0 {
      assert n in multiset(caches[0]);
    } else {
      InCache(caches[1..], w - 1, n);
    }
  }

  // ----- Allocating -----

  predicate Allocating(phase: Phase) {
    phase.Asking? || phase.RefillLock? || phase.Refilling? || phase.Taking? || phase.PrepareLock? || phase.Preparing?
    || phase.Popped?
  }

  // The cache was not empty, so nothing is asked of the others.
  predicate FromCache(cache: seq<nat>, phase: Phase, now: seq<nat>) {
    cache != [] &&
    match phase
    case Asking => now == cache
    case Taking => now == cache
    case Popped(k) => k == Top(cache) && now == Pop(cache)
    case _ => false
  }

  function FromCacheLeft(phase: Phase): nat {
    match phase case Asking => 3 case Taking => 2 case Popped(_) => 1 case _ => 0
  }

  lemma AllocatingStep(cacheSize: nat, batchSize: nat, w: nat, c: Change)
    requires Allocating(c.phase)
    ensures var c' := Stepped(cacheSize, batchSize, w, c);
            if c.phase.Popped?
            then c'.phase.Resting? && c'.held == c.held + multiset{c.phase.node} && c'.cache == c.cache
                 && c'.flagged == c.flagged + {c.phase.node}
            else Allocating(c'.phase) && c'.held == c.held
  {
  }

  lemma FromCacheStep(cacheSize: nat, batchSize: nat, w: nat, cache: seq<nat>, c: Change)
    requires Allocating(c.phase) && !c.phase.Popped?
    ensures var c' := Stepped(cacheSize, batchSize, w, c);
            FromCache(cache, c.phase, c.cache) ==>
            FromCache(cache, c'.phase, c'.cache) && FromCacheLeft(c'.phase) == FromCacheLeft(c.phase) - 1
  {
  }

  // The thread's last step: it marks a node nobody uses and has it.
  ghost predicate HandsOut(before: State, w: nat, n: nat, last: State) {
    && Possible(before, Step(w)) && Next(before, Step(w)) == last
    && n !in before.held && n in before.made
    && last.held == before.held + multiset{n} && n in last.flagged
  }

  lemma {:induction false} AllocatingOn(s: State, w: nat, cache: seq<nat>, moves: seq<Move>, last: State)
    returns (n: nat, before: State)
    requires Ok(s) && UntilRest(s, w, moves, last) && Allocating(s.phases[w])
    ensures HandsOut(before, w, n, last)
    ensures Gained(s, moves, w) == multiset{n} && Lost(s, moves, w) == multiset{}
    ensures |s.caches| == |s.phases| && (FromCache(cache, s.phases[w], s.caches[w]) ==>
              && n == Top(cache) && w < |last.caches| && last.caches[w] == Pop(cache)
              && OwnSteps(moves, w) == FromCacheLeft(s.phases[w]))
    decreases |moves|
  {
    hide Ok, Next, Possible, After, Stepped, FromCache, FromCacheLeft, HandsOut;
    BothLists(s);
    var m := moves[0];
    OkNext(s, m);
    if m.worker == w {
      OnlySteps(s, m);
      OwnMove(s, w);
      BeforeIs(s, w);
      AllocatingStep(s.cacheSize, s.batchSize, w, Before(s, w));
      if s.phases[w].Popped? {
        n, before := s.phases[w].node, s;
        LastStep(s, w, cache, moves, last);
      } else {
        FromCacheStep(s.cacheSize, s.batchSize, w, cache, Before(s, w));
        n, before := AllocatingOn(Next(s, m), w, cache, moves[1..], last);
      }
    } else {
      OthersMove(s, m, w);
      n, before := AllocatingOn(Next(s, m), w, cache, moves[1..], last);
    }
  }

  lemma LastStep(s: State, w: nat, cache: seq<nat>, moves: seq<Move>, last: State)
    requires Ok(s) && UntilRest(s, w, moves, last) && s.phases[w].Popped? && moves[0] == Step(w)
    ensures HandsOut(s, w, s.phases[w].node, last)
    ensures Gained(s, moves, w) == multiset{s.phases[w].node} && Lost(s, moves, w) == multiset{}
    ensures |s.caches| == |s.phases| && (FromCache(cache, s.phases[w], s.caches[w]) ==>
              && s.phases[w].node == Top(cache) && w < |last.caches| && last.caches[w] == Pop(cache)
              && OwnSteps(moves, w) == 1 == FromCacheLeft(s.phases[w]))
  {
    hide Ok, Next, Possible, After, Stepped, HandsOut;
    BothLists(s);
    OwnMove(s, w);
    OkNext(s, Step(w));
    BothLists(Next(s, Step(w)));
    BeforeIs(s, w);
    AllocatingStep(s.cacheSize, s.batchSize, w, Before(s, w));
    HandedOut(s, w, s.phases[w].node);
    assert moves[1..] == [] && last == Next(s, Step(w));
    MoreHeld(s.held, s.phases[w].node);
  }

  lemma MoreHeld(held: multiset<nat>, n: nat)
    ensures held + multiset{n} - held == multiset{n} && held - (held + multiset{n}) == multiset{}
  {
  }

  lemma HandedOut(s: State, w: nat, n: nat)
    requires Ok(s) && Possible(s, Step(w)) && s.phases[w] == Popped(n)
    ensures HandsOut(s, w, n, Next(s, Step(w)))
  {
    hide WorkersOk, LockOk, FlagsOk, Hands, Scheduler.Queued;
    InHandOnce(s, w, n);
    HandsAtLeast(s.phases, w, n);
    assert Places(s)[n] >= 1;
    assert s.made[n - 1] == n;
  }

  // When a thread is at rest again after it has allocated, its call has put exactly one node into use, one that nobody
  // used; it took it from the top of its own cache, in three steps, if there was any.
  lemma AllocateDoes(s: State, w: nat, moves: seq<Move>, last: State) returns (n: nat, before: State)
    requires Reachable(s) && Possible(s, Allocate(w)) && UntilRest(Next(s, Allocate(w)), w, moves, last)
    ensures HandsOut(before, w, n, last)
    ensures Gained(s, [Allocate(w)] + moves, w) == multiset{n} && Lost(s, [Allocate(w)] + moves, w) == multiset{}
    ensures s.caches[w] != [] ==>
              n == Top(s.caches[w]) && w < |last.caches| && last.caches[w] == Pop(s.caches[w])
                  && OwnSteps(moves, w) == 3
  {
    hide Ok, Next, Possible, After, Reachable, UntilRest, HandsOut;
    ReachableOk(s);
    BothLists(s);
    WithinThreads(s, Allocate(w));
    OkNext(s, Allocate(w));
    AllocateStarts(s, w);
    n, before := AllocatingOn(Next(s, Allocate(w)), w, s.caches[w], moves, last);
    assert ([Allocate(w)] + moves)[1..] == moves;
  }

  lemma AllocateStarts(s: State, w: nat)
    requires Possible(s, Allocate(w))
    ensures var s' := Next(s, Allocate(w));
            && s'.phases[w] == Asking && s'.caches[w] == s.caches[w] && s'.cacheSize == s.cacheSize
            && |s'.phases| == |s.phases| && After(s, Allocate(w)).held == s.held && s'.batchSize == s.batchSize
            && s'.locked == s.locked
  {
  }

  // ----- Allocating alone -----

  // How many steps it takes thread `w` at most if no other thread moves.
  function AloneLeft(s: State, w: nat): int
    requires w < |s.phases| == |s.caches|
  {
    var k, b, dry := s.cacheSize, s.batchSize, s.stack == [] && s.caches[w] == [];
    match s.phases[w]
    case Popped(_) => 1
    case Taking => if s.caches[w] != [] then 2 else k + b + 8
    case Refilling(i) => if dry then k + b + 9 else k - i + 3
    case RefillLock => if s.stack == [] then k + b + 10 else k + 4
    case Asking => if s.caches[w] != [] then 3 else if s.stack == [] then k + b + 11 else k + 5
    case Preparing(i) => b - i + k + 6
    case PrepareLock => k + b + 7
    case _ => 0
  }

  // The mutex is free or its own, and a batch begun has left something on the shared stack.
  predicate Alone(s: State, w: nat)
    requires w < |s.phases|
  {
    && (s.locked.Some? ==> s.locked.value == w)
    && (WantsLock(s.phases[w]) ==> s.locked.None?)
    && (s.phases[w].Preparing? ==> s.phases[w].made <= s.batchSize && |s.stack| >= s.phases[w].made)
  }

  lemma AloneStep(s: State, w: nat)
    requires Ok(s) && w < |s.phases| && Alone(s, w) && Allocating(s.phases[w]) && s.batchSize > 0
    ensures Possible(s, Step(w))
    ensures var s' := Next(s, Step(w));
            && |s'.phases| == |s.phases| == |s.caches| == |s'.caches| && s'.batchSize == s.batchSize
            && (s'.phases[w].Resting? || (Alone(s', w) && Allocating(s'.phases[w])))
            && AloneLeft(s', w) < AloneLeft(s, w) && AloneLeft(s', w) >= 0 && s'.cacheSize == s.cacheSize
  {
    hide FlagsOk, Conserved;
    assert WorkerOk(s.cacheSize, s.caches[w], s.phases[w]);
    assert HasLock(s.phases[w]) <==> s.locked == Machine.Some(w);
  }

  lemma {:induction false} AloneEnds(s: State, w: nat) returns (moves: seq<Move>, last: State)
    requires Ok(s) && w < |s.phases| == |s.caches| && s.batchSize > 0
    requires s.phases[w].Resting? || (Alone(s, w) && Allocating(s.phases[w]))
    requires AloneLeft(s, w) >= 0
    ensures UntilRest(s, w, moves, last) && |moves| <= AloneLeft(s, w)
    ensures forall m :: m in moves ==> m == Step(w)
    decreases AloneLeft(s, w)
  {
    hide Ok, Next, Possible, AloneLeft, Alone, Allocating;
    if s.phases[w].Resting? {
      moves, last := [], s;
    } else {
      AloneStep(s, w);
      OkNext(s, Step(w));
      var rest: seq<Move>;
      rest, last := AloneEnds(Next(s, Step(w)), w);
      moves := [Step(w)] + rest;
      assert moves[1..] == rest;
    }
  }

  // A thread that is left alone gets its node, whatever the caches of the others hold: at worst it makes a batch.
  lemma AllocateEnds(s: State, w: nat) returns (moves: seq<Move>, last: State)
    requires Reachable(s) && Possible(s, Allocate(w)) && s.locked.None? && s.batchSize > 0
    ensures UntilRest(Next(s, Allocate(w)), w, moves, last)
    ensures |moves| <= s.cacheSize + s.batchSize + 11 && forall m :: m in moves ==> m == Step(w)
  {
    hide Ok, Next, Possible, Reachable, UntilRest;
    ReachableOk(s);
    BothLists(s);
    WithinThreads(s, Allocate(w));
    OkNext(s, Allocate(w));
    AllocateStarts(s, w);
    BothLists(Next(s, Allocate(w)));
    moves, last := AloneEnds(Next(s, Allocate(w)), w);
  }

  // ----- Under the mutex -----

  // Moves of any threads until thread `w` lets the mutex go.
  ghost predicate UntilFree(s: State, w: nat, moves: seq<Move>, last: State)
    decreases |moves|
  {
    && w < |s.phases|
    && if s.locked != Machine.Some(w) then moves == [] && s == last
       else moves != [] && Possible(s, moves[0]) && UntilFree(Next(s, moves[0]), w, moves[1..], last)
  }

  // Nobody else touches what all share while thread `w` has the mutex.
  lemma OthersWait(s: State, m: Move, w: nat)
    requires Ok(s) && Possible(s, m) && s.locked == Machine.Some(w) && m.worker != w
    ensures Next(s, m).stack == s.stack && Next(s, m).made == s.made && Next(s, m).locked == s.locked
  {
    hide WorkersOk, FlagsOk, Conserved;
    assert HasLock(s.phases[m.worker]) <==> s.locked == Machine.Some(m.worker);
  }

  // The k nodes after the first m.
  function Fresh(m: nat, k: int): seq<nat> {
    if k <= 0 then [] else Fresh(m, k - 1) + [m + k]
  }

  lemma {:induction false} PreparingOn(s: State, w: nat, moves: seq<Move>, last: State, stack: seq<nat>, made: seq<nat>)
    requires Ok(s) && UntilFree(s, w, moves, last) && s.locked == Machine.Some(w) && s.phases[w].Preparing?
    requires var i := s.phases[w].made;
             i <= s.batchSize && s.stack == stack + Fresh(|made|, i) && s.made == made + Fresh(|made|, i)
    ensures w < |last.phases| && last.phases[w] == Asking
    ensures last.stack == stack + Fresh(|made|, s.batchSize) && last.made == made + Fresh(|made|, s.batchSize)
    decreases |moves|
  {
    hide Ok, Next, Possible, After;
    BothLists(s);
    var m := moves[0];
    OkNext(s, m);
    if m.worker == w {
      OnlySteps(s, m);
      OwnMove(s, w);
      FreshLength(|made|, s.phases[w].made);
      if s.phases[w].made < s.batchSize {
        PreparingOn(Next(s, m), w, moves[1..], last, stack, made);
      } else {
        FreedNow(Next(s, m), w, moves[1..], last);
      }
    } else {
      OthersMove(s, m, w);
      OthersWait(s, m, w);
      SameSizes(s, m);
      PreparingOn(Next(s, m), w, moves[1..], last, stack, made);
    }
  }

  lemma {:induction false} FreshLength(m: nat, k: nat)
    ensures |Fresh(m, k)| == k
    decreases k
  {
    if k > 0 {
      FreshLength(m, k - 1);
    }
  }

  lemma FreedNow(s: State, w: nat, moves: seq<Move>, last: State)
    requires UntilFree(s, w, moves, last) && s.locked.None?
    ensures s == last
  {
  }

  lemma SameSizes(s: State, m: Move)
    requires Possible(s, m)
    ensures Next(s, m).cacheSize == s.cacheSize && Next(s, m).batchSize == s.batchSize
  {
  }

  // A batch is as many new nodes as its size says, with the next numbers, all on the shared stack.
  lemma BatchDoes(s: State, w: nat, moves: seq<Move>, last: State)
    requires Reachable(s) && UntilFree(s, w, moves, last) && s.phases[w] == Preparing(0)
    ensures w < |last.phases| && last.phases[w] == Asking
    ensures last.stack == s.stack + Fresh(|s.made|, s.batchSize) && last.made == s.made + Fresh(|s.made|, s.batchSize)
  {
    ReachableOk(s);
    hide FlagsOk, Conserved, WorkersOk, Next, UntilFree, Reachable;
    assert HasLock(s.phases[w]) <==> s.locked == Machine.Some(w);
    PreparingOn(s, w, moves, last, s.stack, s.made);
  }

  // The top k values, the topmost first.
  function TopOf(stack: seq<nat>, k: int): seq<nat>
    requires k <= |stack|
  {
    if k <= 0 then [] else TopOf(stack, k - 1) + [stack[|stack| - k]]
  }

  function Least(a: nat, b: nat): nat {
    if a < b then a else b
  }

  lemma {:induction false} RefillingOn(s: State, w: nat, moves: seq<Move>, last: State, stack: seq<nat>)
    requires Ok(s) && UntilFree(s, w, moves, last) && s.locked == Machine.Some(w) && s.phases[w].Refilling?
    requires var i := s.phases[w].moved;
             && i <= s.cacheSize && i <= |stack| && s.stack == stack[..|stack| - i]
             && w < |s.caches| && s.caches[w] == TopOf(stack, i)
    ensures var k := Least(s.cacheSize, |stack|);
            && w < |last.phases| && last.phases[w] == Taking && last.stack == stack[..|stack| - k]
            && w < |last.caches| && last.caches[w] == TopOf(stack, k)
    decreases |moves|
  {
    hide Ok, Next, Possible, After;
    BothLists(s);
    var m := moves[0];
    OkNext(s, m);
    BothLists(Next(s, m));
    if m.worker == w {
      OnlySteps(s, m);
      OwnMove(s, w);
      if s.phases[w].moved < s.cacheSize && s.stack != [] {
        RefillingOn(Next(s, m), w, moves[1..], last, stack);
      } else {
        FreedNow(Next(s, m), w, moves[1..], last);
      }
    } else {
      OthersMove(s, m, w);
      OthersWait(s, m, w);
      RefillingOn(Next(s, m), w, moves[1..], last, stack);
    }
  }

  // A cache is refilled with one cache size from the top of the shared stack, or with all there is.
  lemma RefillDoes(s: State, w: nat, moves: seq<Move>, last: State)
    requires Reachable(s) && UntilFree(s, w, moves, last) && s.phases[w] == Refilling(0)
    ensures var k := Least(s.cacheSize, |s.stack|);
            && w < |last.phases| && last.phases[w] == Taking && last.stack == s.stack[..|s.stack| - k]
            && w < |last.caches| && last.caches[w] == TopOf(s.stack, k)
  {
    ReachableOk(s);
    BothLists(s);
    assert WorkerOk(s.cacheSize, s.caches[w], s.phases[w]);
    hide FlagsOk, Conserved, WorkersOk, Next, UntilFree, Reachable;
    assert HasLock(s.phases[w]) <==> s.locked == Machine.Some(w);
    assert s.stack[..|s.stack| - 0] == s.stack;
    RefillingOn(s, w, moves, last, s.stack);
  }
}
