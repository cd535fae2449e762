/**
 The single producer, single consumer queue: a ring of slots, two cursors that only grow and wrap round at 2^64,
 and for each side a cached copy of the other side's cursor.
 */
module Queue {
  import opened Machine
  import opened Ring

  // ----- One thread -----

  class Queue<V(0)> {
    const size: nat
    const values: array<V>
    var front: nat
    var back: nat
    var cachedFront: nat
    var cachedBack: nat

    // How many values were ever pushed and popped, what the caches stand for, and what is inside.
    ghost var pushed: nat
    ghost var popped: nat
    ghost var seenFront: nat
    ghost var seenBack: nat
    ghost var contents: seq<V>

    ghost predicate Valid()
      reads this, values
    {
      && Sized(size) && values.Length == size
      && front == Word(popped) && back == Word(pushed)
      && cachedFront == Word(seenFront) && cachedBack == Word(seenBack)
      && seenFront <= popped <= seenBack <= pushed <= seenFront + size
      && |contents| == pushed - popped
      && forall i :: popped <= i < pushed ==> values[Place(i, size)] == contents[i - popped]
    }

    // `queue_new`
    constructor (size: nat)
      requires Sized(size)
      ensures Valid() && fresh(values) && this.size == size && contents == []
    {
      this.size := size;
      values := new V[size];
      front, back, cachedFront, cachedBack := 0, 0, 0, 0;
      pushed, popped, seenFront, seenBack, contents := 0, 0, 0, 0, [];
    }

    predicate IsFull(f: nat, b: nat)
      requires f < WORD && b < WORD
    {
      Minus(b, f) == size
    }

    // `queue_push_back`
    method PushBack(value: V) returns (ok: bool)
      requires Valid()
      modifies this, values
      ensures Valid()
      ensures ok <==> |old(contents)| < size
      ensures contents == if ok then old(contents) + [value] else old(contents)
    {
      hide Slot, Word, Place, Minus, IsPowerOfTwo;
      Difference(seenFront, pushed);
      Difference(popped, pushed);
      if IsFull(cachedFront, back) {
        cachedFront, seenFront := front, popped;
        if IsFull(cachedFront, back) {
          return false;
        }
      }
      SlotOfCount(pushed, size);
      NextCursor(pushed);
      forall i | popped <= i < pushed
        ensures Place(i, size) != Place(pushed, size)
      {
        SlotsDiffer(i, pushed, size);
      }
      values[Slot(back, size)] := value;
      back := Word(back + 1);
      pushed, contents := pushed + 1, contents + [value];
      return true;
    }

    // `queue_pop_front`
    method PopFront() returns (value: Option<V>)
      requires Valid()
      modifies this
      ensures Valid()
      ensures value == if old(contents) == [] then None else Some(old(contents)[0])
      ensures contents == if old(contents) == [] then [] else old(contents)[1..]
    {
      hide Slot, Word, Place, Minus, IsPowerOfTwo;
      Difference(popped, popped);
      Difference(popped, seenBack);
      Difference(popped, pushed);
      if front == cachedBack {
        cachedBack, seenBack := back, pushed;
        if front == cachedBack {
          return None;
        }
      }
      SlotOfCount(popped, size);
      NextCursor(popped);
      value := Some(values[Slot(front, size)]);
      front := Word(front + 1);
      popped, contents := popped + 1, contents[1..];
    }

    // `queue_is_empty`
    method IsEmpty() returns (empty: bool)
      requires Valid()
      ensures empty <==> contents == []
    {
      Difference(popped, pushed);
      return back == front;
    }

    // `queue_length`
    method Length() returns (length: nat)
      requires Valid()
      ensures length == |contents|
    {
      Difference(popped, pushed);
      return Minus(back, front);
    }

    // `queue_get`: an index beyond the contents is not refused, it gives whatever is in the slot.
    method Get(index: nat) returns (value: Option<V>)
      requires Valid()
      modifies this`cachedBack, this`seenBack
      ensures Valid()
      ensures value.None? <==> contents == []
      ensures index < |contents| ==> value == Some(contents[index])
      ensures contents != [] ==> value == Some(values[Place(popped + index, size)])
    {
      hide Slot, Word, Place, Minus, IsPowerOfTwo;
      Difference(popped, popped);
      Difference(popped, seenBack);
      Difference(popped, pushed);
      if front == cachedBack {
        cachedBack, seenBack := back, pushed;
        if front == cachedBack {
          return None;
        }
      }
      SlotOfCount(popped + index, size);
      WordSum(popped, index);
      return Some(values[Slot(Word(front + index), size)]);
    }

    // `queue_purge`: what is handed to the destroy function, in order.
    method Purge() returns (gone: seq<V>)
      requires Valid()
      modifies this
      ensures Valid() && contents == [] && gone == old(contents)
    {
      hide Slot, Word, Place, IsPowerOfTwo;
      gone := [];
      var empty := IsEmpty();
      while !empty
        invariant Valid() && gone + contents == old(contents) && (empty <==> contents == [])
        decreases |contents|
      {
        var value := PopFront();
        gone := gone + [value.value];
        empty := IsEmpty();
      }
    }
  }

  // ----- A producer and a consumer at the same time -----

  type Item = nat

  // Where the producer is in `queue_push_back`, the consumer in `queue_pop_front`.
  datatype Producer =
    | Resting
    | Entering(item: Item)
    | Deciding(item: Item, at: nat)      // it has loaded its own cursor
    | Writing(item: Item, at: nat)       // there is room
    | Publishing(item: Item, at: nat)    // the slot is written, the cursor not yet stored

  datatype Consumer =
    | Waiting
    | Starting
    | Looking(at: nat)
    | Reading(at: nat)
    | Leaving(at: nat, item: Item)

  // `history` and `out`: everything pushed and popped so far; `seenFront`, `seenBack`: the counts the caches stand for.
  datatype Shared = Shared(
    size: nat, values: seq<Item>, front: nat, back: nat, cachedFront: nat, cachedBack: nat,
    producer: Producer, consumer: Consumer, history: seq<Item>, out: seq<Item>, seenFront: nat, seenBack: nat)

  datatype Step = Call(item: Item) | Produce | Ask | Consume

  predicate Possible(q: Shared, step: Step) {
    match step
    case Call(_) => q.producer.Resting?
    case Produce => !q.producer.Resting?
    case Ask => q.consumer.Waiting?
    case Consume => !q.consumer.Waiting?
  }

  ghost predicate Words(q: Shared) {
    && q.front < WORD && q.back < WORD && q.cachedFront < WORD && q.cachedBack < WORD
    && Sized(q.size) && |q.values| == q.size
    && (q.producer.Deciding? || q.producer.Writing? || q.producer.Publishing? ==> q.producer.at < WORD)
    && (q.consumer.Looking? || q.consumer.Reading? || q.consumer.Leaving? ==> q.consumer.at < WORD)
    && (forall c: nat :: c < WORD ==> Slot(c, q.size) < q.size)
  }

  ghost function ProduceStep(q: Shared): Shared
    requires Words(q)
  {
    match q.producer
    case Resting => q
    case Entering(x) => q.(producer := Deciding(x, q.back))
    case Deciding(x, b) =>
      if Minus(b, q.cachedFront) != q.size then q.(producer := Writing(x, b))
      else
        var q' := q.(cachedFront := q.front, seenFront := |q.out|);
        if Minus(b, q'.cachedFront) == q.size then q'.(producer := Resting) else q'.(producer := Writing(x, b))
    case Writing(x, b) => q.(values := q.values[Slot(b, q.size) := x], producer := Publishing(x, b))
    case Publishing(x, b) => q.(back := Word(b + 1), history := q.history + [x], producer := Resting)
  }

  ghost function ConsumeStep(q: Shared): Shared
    requires Words(q)
  {
    match q.consumer
    case Waiting => q
    case Starting => q.(consumer := Looking(q.front))
    case Looking(f) =>
      if f != q.cachedBack then q.(consumer := Reading(f))
      else
        var q' := q.(cachedBack := q.back, seenBack := |q.history|);
        if f == q'.cachedBack then q'.(consumer := Waiting) else q'.(consumer := Reading(f))
    case Reading(f) => q.(consumer := Leaving(f, q.values[Slot(f, q.size)]))
    case Leaving(f, x) => q.(front := Word(f + 1), out := q.out + [x], consumer := Waiting)
  }

  ghost function Next(q: Shared, step: Step): Shared
    requires Words(q) && Possible(q, step)
  {
    match step
    case Call(x) => q.(producer := Entering(x))
    case Produce => ProduceStep(q)
    case Ask => q.(consumer := Starting)
    case Consume => ConsumeStep(q)
  }

  // What holds at every step: the cursors stand for the numbers of values pushed and popped, the caches for earlier
  // ones, and every value not popped yet is still in its slot.
  ghost predicate Ok(q: Shared) {
    var p, c := |q.history|, |q.out|;
    && Words(q)
    && q.back == Word(p) && q.front == Word(c)
    && q.cachedFront == Word(q.seenFront) && q.cachedBack == Word(q.seenBack)
    && q.seenFront <= c <= q.seenBack <= p <= q.seenFront + q.size
    && q.out == q.history[..c]
    && (forall i {:trigger q.history[i]} :: c <= i < p ==> q.values[Place(i, q.size)] == q.history[i])
    && ProducerOk(q) && ConsumerOk(q)
  }

  ghost predicate ProducerOk(q: Shared)
    requires Words(q)
  {
    var p := |q.history|;
    && (q.producer.Deciding? || q.producer.Writing? || q.producer.Publishing? ==> q.producer.at == Word(p))
    && (q.producer.Writing? || q.producer.Publishing? ==> p < q.seenFront + q.size)
    && (q.producer.Publishing? ==> q.values[Place(p, q.size)] == q.producer.item)
  }

  ghost predicate ConsumerOk(q: Shared) {
    var c := |q.out|;
    && (q.consumer.Looking? || q.consumer.Reading? || q.consumer.Leaving? ==> q.consumer.at == Word(c))
    && (q.consumer.Reading? || q.consumer.Leaving? ==> c < q.seenBack)
    && (q.consumer.Leaving? ==> c < |q.history| && q.consumer.item == q.history[c])
  }

  lemma DecideKeeps(q: Shared)
    requires Ok(q) && q.producer.Deciding?
    ensures Ok(ProduceStep(q))
    // it refuses only when every slot is taken
    ensures ProduceStep(q).producer.Resting? ==> |q.history| == |q.out| + q.size
    ensures ProduceStep(q).producer.Writing? ==> |q.history| < |q.out| + q.size
  {
    Difference(q.seenFront, |q.history|);
    Difference(|q.out|, |q.history|);
  }

  lemma WriteKeeps(q: Shared)
    requires Ok(q) && q.producer.Writing?
    ensures Ok(ProduceStep(q))
  {
    SlotOfCount(|q.history|, q.size);
    var p, c := |q.history|, |q.out|;
    var q' := ProduceStep(q);
    forall i | c <= i < p
      ensures q'.values[Place(i, q.size)] == q.history[i]
    {
      SlotOfCount(i, q.size);
      SlotsDiffer(i, p, q.size);
    }
  }

  lemma PublishKeeps(q: Shared)
    requires Ok(q) && q.producer.Publishing?
    ensures Ok(ProduceStep(q))
  {
    NextCursor(|q.history|);
    var p, c := |q.history|, |q.out|;
    var q' := ProduceStep(q);
    assert q'.history[..c] == q.history[..c];
    forall i | c <= i < p + 1
      ensures q'.values[Place(i, q.size)] == q'.history[i]
    {
      if i < p {
        assert q'.history[i] == q.history[i];
      }
    }
  }

  lemma LookKeeps(q: Shared)
    requires Ok(q) && q.consumer.Looking?
    ensures Ok(ConsumeStep(q))
    // it finds nothing only when everything pushed has been popped
    ensures ConsumeStep(q).consumer.Waiting? ==> |q.history| == |q.out|
    ensures ConsumeStep(q).consumer.Reading? ==> |q.out| < |q.history|
  {
    Difference(|q.out|, q.seenBack);
    Difference(|q.out|, |q.history|);
  }

  lemma ReadKeeps(q: Shared)
    requires Ok(q) && q.consumer.Reading?
    ensures Ok(ConsumeStep(q))
  {
    SlotOfCount(|q.out|, q.size);
    assert q.values[Place(|q.out|, q.size)] == q.history[|q.out|];
  }

  lemma LeaveKeeps(q: Shared)
    requires Ok(q) && q.consumer.Leaving?
    ensures Ok(ConsumeStep(q))
  {
    NextCursor(|q.out|);
    var c := |q.out|;
    assert q.history[..c + 1] == q.history[..c] + [q.history[c]];
  }

  lemma StepKeeps(q: Shared, step: Step)
    requires Ok(q) && Possible(q, step)
    ensures Ok(Next(q, step))
  {
    if step.Produce? {
      match q.producer
      case Resting =>
      case Entering(_) =>
      case Deciding(_, _) => DecideKeeps(q);
      case Writing(_, _) => WriteKeeps(q);
      case Publishing(_, _) => PublishKeeps(q);
    } else if step.Consume? {
      match q.consumer
      case Waiting =>
      case Starting =>
      case Looking(_) => LookKeeps(q);
      case Reading(_) => ReadKeeps(q);
      case Leaving(_, _) => LeaveKeeps(q);
    }
  }

  ghost predicate Runs(q: Shared, steps: seq<Step>, last: Shared)
    decreases |steps|
  {
    if steps == [] then q == last
    else Words(q) && Possible(q, steps[0]) && Runs(Next(q, steps[0]), steps[1..], last)
  }

  function New(size: nat): Shared {
    Shared(size, seq(size, i => 0), 0, 0, 0, 0, Resting, Waiting, [], [], 0, 0)
  }

  lemma NewOk(size: nat)
    requires Sized(size)
    ensures Ok(New(size))
  {
    forall c: nat | c < WORD
      ensures Slot(c, size) < size
    {
      SlotOfCount(c, size);
      RemainderIs(c, WORD, 0, c);
    }
  }

  lemma {:induction false} RunKeeps(q: Shared, steps: seq<Step>, last: Shared)
    requires Ok(q) && Runs(q, steps, last)
    ensures Ok(last)
    decreases |steps|
  {
    hide Ok, Words, Next;
    if steps != [] {
      StepKeeps(q, steps[0]);
      RunKeeps(Next(q, steps[0]), steps[1..], last);
    }
  }

  // Whatever the interleaving, the values come out in the order they were pushed, none lost, repeated or replaced,
  // and there are never more inside than slots.
  lemma FirstInFirstOut(size: nat, steps: seq<Step>, q: Shared)
    requires Sized(size) && Runs(New(size), steps, q)
    ensures q.out <= q.history && |q.history| - |q.out| <= q.size
    ensures forall i :: |q.out| <= i < |q.history| ==>
              Place(i, q.size) < |q.values| && q.values[Place(i, q.size)] == q.history[i]
  {
    NewOk(size);
    RunKeeps(New(size), steps, q);
    forall i | |q.out| <= i < |q.history|
      ensures Place(i, q.size) < |q.values| && q.values[Place(i, q.size)] == q.history[i]
    {
      SlotOfCount(i, q.size);
    }
  }

  // A push is refused only in a state where the queue is full, a pop only in one where it is empty.
  lemma RefusedOnlyWhenTrue(size: nat, steps: seq<Step>, q: Shared)
    requires Sized(size) && Runs(New(size), steps, q)
    ensures Words(q)
    ensures q.producer.Deciding? ==>
              (ProduceStep(q).producer.Resting? ==> |q.history| - |q.out| == q.size)
              && (|q.history| - |q.out| == q.size ==> ProduceStep(q).producer.Resting?)
    ensures q.consumer.Looking? ==>
              (ConsumeStep(q).consumer.Waiting? ==> q.history == q.out)
              && (q.history == q.out ==> ConsumeStep(q).consumer.Waiting?)
  {
    NewOk(size);
    RunKeeps(New(size), steps, q);
    if q.producer.Deciding? {
      DecideKeeps(q);
    }
    if q.consumer.Looking? {
      LookKeeps(q);
      assert q.history[..|q.history|] == q.history;
    }
  }

  // ----- What the calls do -----

  predicate Full(q: Shared) {
    |q.history| - |q.out| == q.size
  }

  // The values asked to be pushed since `q`, after `before`, without those whose call ended on a full queue.
  ghost function Accepted(q: Shared, steps: seq<Step>, before: seq<Item>): seq<Item>
    decreases |steps|
  {
    if steps == [] || !Words(q) || !Possible(q, steps[0]) then before
    else
      var after := if steps[0].Call? then before + [steps[0].item]
                   else if steps[0].Produce? && q.producer.Deciding? && Full(q) && before != []
                   then before[..|before| - 1]
                   else before;
      Accepted(Next(q, steps[0]), steps[1..], after)
  }

  // The item of the call that is under way.
  function Pending(q: Shared): seq<Item> {
    if q.producer.Resting? then [] else [q.producer.item]
  }

  // What the pops begun since `q` have answered, after `before`: nothing at the load that finds the queue empty,
  // and otherwise the value that was read.
  ghost function Answers(q: Shared, steps: seq<Step>, before: seq<Option<Item>>): seq<Option<Item>>
    decreases |steps|
  {
    if steps == [] || !Words(q) || !Possible(q, steps[0]) then before
    else
      var after := if steps[0].Consume? && q.consumer.Looking? && q.history == q.out then before + [None]
                   else if steps[0].Consume? && q.consumer.Leaving? then before + [Some(q.consumer.item)]
                   else before;
      Answers(Next(q, steps[0]), steps[1..], after)
  }

  function Values(answers: seq<Option<Item>>): seq<Item> {
    if answers == [] then []
    else
      var last := answers[|answers| - 1];
      Values(answers[..|answers| - 1]) + if last.Some? then [last.value] else []
  }

  // How many steps of a kind there are.
  function Number(steps: seq<Step>, kind: Step -> bool): nat {
    if steps == [] then 0 else (if kind(steps[0]) then 1 else 0) + Number(steps[1..], kind)
  }

  const CALLS := (step: Step) => step.Call?
  const PRODUCES := (step: Step) => step.Produce?
  const ASKS := (step: Step) => step.Ask?
  const CONSUMES := (step: Step) => step.Consume?

  // How many steps a call needs at most until it is over.
  function ProducerLeft(p: Producer): nat {
    match p
    case Resting => 0
    case Entering(_) => 4
    case Deciding(_, _) => 3
    case Writing(_, _) => 2
    case Publishing(_, _) => 1
  }

  function ConsumerLeft(c: Consumer): nat {
    match c
    case Waiting => 0
    case Starting => 4
    case Looking(_) => 3
    case Reading(_) => 2
    case Leaving(_, _) => 1
  }

  lemma ProduceMoves(q: Shared)
    requires Ok(q) && !q.producer.Resting?
    ensures var q' := ProduceStep(q);
            && ProducerLeft(q'.producer) < ProducerLeft(q.producer)
            && q'.history + Pending(q')
               == (if q.producer.Deciding? && Full(q) then q.history else q.history + Pending(q))
            && q'.out == q.out && q'.consumer == q.consumer
  {
    if q.producer.Deciding? {
      DecideKeeps(q);
    }
  }

  lemma ConsumeMoves(q: Shared)
    requires Ok(q) && !q.consumer.Waiting?
    ensures var q' := ConsumeStep(q);
            && ConsumerLeft(q'.consumer) < ConsumerLeft(q.consumer)
            && q'.out == (if q.consumer.Leaving? then q.out + [q.consumer.item] else q.out)
            && (q'.consumer.Waiting? <==> q.consumer.Leaving? || (q.consumer.Looking? && q.history == q.out))
            && q'.history == q.history && q'.producer == q.producer
  {
    if q.consumer.Looking? {
      LookKeeps(q);
      assert q.history[..|q.history|] == q.history;
    }
  }

  lemma ValuesNext(answers: seq<Option<Item>>, a: Option<Item>)
    ensures Values(answers + [a]) == Values(answers) + if a.Some? then [a.value] else []
  {
    assert (answers + [a])[..|answers|] == answers;
  }

  // Under way or answered: every pop that was begun.
  function Asking(q: Shared): nat {
    if q.consumer.Waiting? then 0 else 1
  }

  lemma {:induction false} PushesCount(q: Shared, steps: seq<Step>, last: Shared, pushed: seq<Item>)
    requires Ok(q) && Runs(q, steps, last) && pushed == q.history + Pending(q)
    ensures Accepted(q, steps, pushed) == last.history + Pending(last)
    ensures Number(steps, PRODUCES) + ProducerLeft(last.producer)
         <= 4 * Number(steps, CALLS) + ProducerLeft(q.producer)
    decreases |steps|
  {
    hide Ok, Words, ProduceStep, ConsumeStep;
    if steps != [] {
      StepKeeps(q, steps[0]);
      var pushed' := pushed;
      match steps[0] {
        case Call(x) => pushed' := pushed + [x];
        case Produce =>
          ProduceMoves(q);
          if q.producer.Deciding? && Full(q) {
            pushed' := pushed[..|pushed| - 1];
          }
        case Ask =>
        case Consume => ConsumeMoves(q);
      }
      PushesCount(Next(q, steps[0]), steps[1..], last, pushed');
    }
  }

  lemma {:induction false} PopsCount(q: Shared, steps: seq<Step>, last: Shared, answers: seq<Option<Item>>)
    requires Ok(q) && Runs(q, steps, last) && Values(answers) == q.out
    ensures Values(Answers(q, steps, answers)) == last.out
    ensures |Answers(q, steps, answers)| + Asking(last) == |answers| + Asking(q) + Number(steps, ASKS)
    ensures Number(steps, CONSUMES) + ConsumerLeft(last.consumer)
         <= 4 * Number(steps, ASKS) + ConsumerLeft(q.consumer)
    decreases |steps|
  {
    hide Ok, Words, ProduceStep, ConsumeStep, Values;
    if steps != [] {
      StepKeeps(q, steps[0]);
      var answers' := answers;
      match steps[0] {
        case Call(_) =>
        case Produce => ProduceMoves(q);
        case Ask =>
        case Consume =>
          ConsumeMoves(q);
          if q.consumer.Leaving? {
            answers' := answers + [Some(q.consumer.item)];
            ValuesNext(answers, Some(q.consumer.item));
          } else if q.consumer.Looking? && q.history == q.out {
            answers' := answers + [None];
            ValuesNext(answers, None);
          }
      }
      PopsCount(Next(q, steps[0]), steps[1..], last, answers');
    }
  }

  // Each accepted push is in the queue, in order, and nothing else: what was pushed is what was asked for without the
  // refused calls and the one under way.  What the pops have answered is what was taken out, in order, and every pop
  // answers.  A push is over after at most four steps of its thread, and so is a pop, whatever the other one does.
  lemma CallsTakeEffect(size: nat, steps: seq<Step>, q: Shared)
    requires Sized(size) && Runs(New(size), steps, q)
    ensures Accepted(New(size), steps, []) == q.history + Pending(q)
    ensures Values(Answers(New(size), steps, [])) == q.out
    ensures |Answers(New(size), steps, [])| + Asking(q) == Number(steps, ASKS)
    ensures Number(steps, PRODUCES) <= 4 * Number(steps, CALLS)
    ensures Number(steps, CONSUMES) <= 4 * Number(steps, ASKS)
    // and neither ever has to wait for the other
    ensures Possible(q, Produce) <==> Pending(q) != []
    ensures Possible(q, Consume) <==> Asking(q) == 1
  {
    hide Ok;
    NewOk(size);
    PushesCount(New(size), steps, q, []);
    PopsCount(New(size), steps, q, []);
  }
}
