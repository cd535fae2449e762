# The inet-forth runtime: a model and its proofs

inet-forth is a Forth in which words build interaction nets. A node has ports, one of them principal; two
principal ports that meet, and for whose constructors a rule is declared, make a task; handling a task takes the
two nodes away and runs the body of the rule on the ends they held. Any number of workers handle tasks at the same
time, connecting ends by a single compare-and-exchange on a wire.

The project models the runtime and states what one relies on when using it:

- **Nets and connecting** (`Links`, `Script`, `Net`, `Confluence`, `Heap`). A net is a set of nodes and a perfect
  matching of ends; fused wires are chains in the matching. `Heap` is `connect` and `fuze` on mutable cells, proved
  to join the far ends of two chains and nothing else. `Confluence` shows that the order of interactions changes
  neither the result nor the number of interactions.
- **Workers at the same time** (`Race`, `Plans`, `Parallel...`, `Crew`, `CrewFinish`, `Scheduler`). `Parallel` is a machine whose
  steps are single memory accesses: locking and reading nodes slot by slot, making nodes slot by slot, the exchange,
  freeing a wire, publishing a task. `ParallelRuns` shows that every interleaving ends like a sequential run,
  `Scheduler` is the protocol of deques, stealing and the shared counter, and `Crew` puts the two together: when all
  threads have left, the net is finished.
- **Programs** (`Machine`, `Primitives`, `Execution`, `Compiler`, `Loader`, `Worker`, `Lexer`, `Layout`, `SourceText`,
  `Reading`). Tokens are compiled to opcodes with numbered locals; the machine drops a frame before it runs the last
  opcode of it. Running compiled code is proved to do what a direct reading of the tokens says, and to end.
- **Natural numbers** (`Nat...`). The rules of `examples/datatypes/nat.fth`, as the compiler translates them: every
  expression of numerals, `add` and `mul` computes its value, in any order and with any number of workers.
- **Combinators** (`Combinators`). The rules of `examples/combinators/CDE.fth` for a combinator that meets its own kind.
- **Containers and text** (`Ring`, `Queue`, `Allocator`, `AllocatorCalls`, `Hash`, `Traversal`, `Aftermath`, `Path`,
  `Text`, `Sexps`).

Objects the program updates in place are classes here (`Heap.Store`, `Loader.Mod`, `Worker.Worker`, `Queue.Queue`,
`Hash.Hash`, `Lexer.Lexer`, `Path.Path`, `Traversal.ConnectedNodeIter`, ...); their methods are proved against
functions on values, and the theorems are about those. What threads do at the same time is a machine over steps,
with quantification over every interleaving.

A new node or wire is named by the two nodes whose meeting made it and a running number. So two orders of
interaction can be compared by plain equality of nets instead of equality up to renaming.

## What a program has to bring along

The program checks none of the following, and nothing below holds without it:

- `Net.GoodSystem`: the body of each rule uses every end it is given or makes exactly once, connects each port it
  makes, leaves nothing on the stack and does not get stuck; and a rule between two equal constructors does not tell
  its two sides apart (`Net.SymmetricRule`), because `rule_match` takes its first branch whenever both match
  (src/core/connect.c:5-10). `NatSystem.NatsGood` proves it of the rules for natural numbers, and
  `Combinators.AnnihilatorsGood` of rules between equal constructors.
- Each constructor has exactly one principal port. Of several rules for one pair of constructors the first declared
  one counts, as in the source; the theorems do not need it to be the only one.
- `ParallelRuns.Runnable`: the program that builds the first net uses each end at most once and finishes each node.
- At least one worker (`count > 0`).

`Net.WellFormed` is not in this list: it is proved of every net such a program builds
(`Confluence.BuildWellFormed`) and kept by each interaction (`Confluence.InteractWellFormed`).

Four properties one might expect do not hold, and each has an exact condition here: a printed s-expression is read
back as itself only without quotes, backslashes and null characters in strings (`Sexps.RoundTrip`); the written
bytes are standard UTF-8 only for some code points (`Text.StandardExactly`); joining a relative path onto where it
starts leads back only without steps upward beyond the common part (`Path.RelativeJoined`); the counter of the
scheduler may read 0 while tasks are running (`Scheduler.CounterReadsZero`). A fifth, that a table counts its
non-empty buckets rightly after deletions, fails as `Hash.Hash.Delete` says exactly.

## Model

| member | source | states |
|---|---|---|
| Heap.Store.Connect | src/core/connect.c:63-79 | On live ends nobody has connected yet, afterwards the far end of the left chain is the partner of the far end of the right one and no other pairing has changed (`Connected`); only wires that had both ends connected are freed, and no cell is written twice (`Freed`); a task comes back exactly when the two far ends are principal and a rule is declared for them. |
| Heap.Store.Fuze | src/core/connect.c:40-61 | The first connector leaves its value in the wire; the second finds it, frees the wire and goes on with the two values, and this ends. Together: the same joining as `Connect`, whatever was in the cell. |
| Heap.Store.ConnectActivePair | src/core/connect.c:16-38 | The two ports become each other's opposite and are linked, no cell changes, and a task is found exactly when some rule is declared for the two constructors in either order: the earliest declared one, although only the arrays of the two constructors are searched. |
| Heap.FindInArray | src/core/mod.c:33-57 | Searching the rules that were pushed onto one constructor's array finds, for a pair with that constructor, the same rule as searching all rules in the order of declaration; it makes no difference which of the two arrays is searched. |
| Heap.FirstDeclared | src/core/connect.c:21-37 | The rule found is the earliest declared one for the two constructors in either order, and none is found only if none is declared. |
| Heap.TaskOriented | src/core/connect.c:3-14 | A task is about exactly the two nodes that met and is turned the way its rule was declared. |
| Heap.TaskOrder | src/core/connect.c:3-38 | Exchanging the arguments gives the same task if and only if the two constructors differ; with equal constructors the left argument comes first. |
| Links.JoinPartner | src/core/connect.c:56-60 | The pairing half of connecting: after linking two free ends every outer end has the partner it had, except that the two far ends now have each other. `Heap.Store.Connect` ties it to the cells. |
| Links.PartnerInvolution | src/net/wire.c:37-48 | Facing is a perfect matching of the outer ends without fixed points, for chains of any length; so a walk along fused wires ends, and walking back from there leads to its start. |
| Heap.Store.WalkCells | src/net/wire.c:37-48 | Following the fuzed values ends, at a wire nobody has fuzed yet or at a principal port, and at a principal port exactly when the matching leads to one, which is then that one. |
| Heap.Store.IsConnected | src/net/wire.c:50-69 | Says yes exactly when the two ends face each other in the matching, principal ports that were never connected included. |
| Heap.Store.NewWire | src/net/wire.c:7-13 | A new wire gives its caller two ends and disturbs nobody else's. |
| Heap.Store.DropNode | src/core/worker_disconnect_node.c:19-35 | A node whose principal port has met another can be recycled without breaking the agreement between cells and links. |
| Confluence.InteractWellFormed | src/core/worker_handle_task.c:33-40 | Every interaction keeps the linear discipline: each end is in exactly one of a slot, a link and the stack, names are fresh, nodes are complete. |
| Confluence.RunWellFormed | src/core/worker_work_sequentially.c:3-10 | Every net a run reaches, after however many tasks, is well formed again, holding what the first one held. |
| Confluence.BuildWellFormed | src/core/worker_reconnect_node.c:34-83 | A program that uses no end twice and finishes its nodes builds a well-formed net, holding exactly the ends it has not used. |
| Confluence.Diamond | src/core/worker_handle_task.c:33-40 | Strong confluence: with two different tasks ready, handling one leaves the other ready, and both orders end in the very same net. |
| Confluence.OrderDoesNotMatter | docs/articles/programming-with-interaction-nets.md:348-355 | If some run finishes, then every other run from the same net, wherever it has got to, can be continued to that same end, and the two parts together take as many interactions and as much work as that run. No order gets stuck or goes on for ever. |
| Confluence.UniqueResult | docs/articles/programming-with-interaction-nets.md:348-355 | Two complete runs handle equally many tasks, weigh the same, and end in the same net. |
| ParallelRuns.NeverFaults | src/core/connect.c:40-61 | In no interleaving is a wire used or freed after it was freed, a node read before it is complete or after it was recycled, a slot filled without the lock, or a second task found while one node is built (the assertion in src/core/worker_reconnect_node.c:63). |
| ParallelRuns.ReadsComplete | src/core/worker_disconnect_node.c:16-35 | A worker that has the lock of a node it disconnects sees all slots filled, even when the principal port was published by the opposite side while the node was being built. |
| ParallelRuns.OneLock | src/core/worker_reconnect_node.c:54-78 | No worker ever holds two node locks. |
| ParallelRuns.TasksApart | src/core/worker_handle_task.c:33-34 | Of all tasks queued, just found, or being handled, no two share a node, and each is in one place only. |
| ParallelRuns.Progress | src/core/worker_disconnect_node.c:16 | Unless everybody is idle and nothing is queued, somebody can move; and while anybody is busy, a busy one can: waiting for node locks never deadlocks. |
| ParallelRuns.RunsEnd | src/core/worker_work_parallelly.c:24-50 | If one sequential run finishes, every interleaving is at most as long as a number computed from the program and that run: memory accesses included, all of them end. |
| CrewFinish.CanFinish | src/core/worker_work_parallelly.c:24-50 | If one sequential run finishes, then every interleaving, wherever it has got to, can be continued until nobody has anything left to do. |
| ParallelRuns.ParallelResult | src/core/worker_work_parallelly.c:24-50 | When nobody has anything left to do, the nodes in memory are those of a complete sequential run from the program's net, which is well formed; no lock is held, the cells hold exactly the fusings of a matching that pairs like that run's, and every slot holds something that is there and unconnected. |
| ParallelRuns.ParallelIsSequential | docs/articles/programming-with-interaction-nets.md:348-355 | So they are those of any complete sequential run one cares to compare with, after equally many interactions, for every number of workers and every interleaving. |
| ParallelHolders.OneHolder | src/core/worker_reconnect_node.c:3-32 | In no state of any run is an end of a wire in two places: an unread slot, a worker's hands while disconnecting, a cell, a connection under way, a connection still to come, a slot still to be filled. |
| ParallelPlaced.NothingIsLost | src/core/worker_reconnect_node.c:3-32 | In every state of every run, both ends of a wire in use whose cell is empty are in one of those places or left over by the program, never both; of a wire whose cell has a value exactly one end is, the other having been used to put the value there. |
| ParallelWires.WiresAccounted | src/core/connect.c:40-61 | In every state of every run, each wire made so far is in exactly one of three places: in use, about to be freed by one worker, or freed. |
| ParallelWires.WiresAtEnd | src/core/connect.c:55-60 | When nobody has anything left to do, the wires made are those in use and those freed, and none is both. |
| Crew.Prepare | src/core/worker_work_parallelly.c:52-66 | Every task found so far, and nothing else, is in one deque and counted, while each worker is idle and about to read the counter; `Scheduler.Prepare` says in which deque. |
| Crew.CrewKeeps | src/core/worker_work_parallelly.c:24-50 | Whatever threads do with deques, stealing and the counter is, for the net, an interleaving of the machine above: the deques hold exactly the queued tasks, without repetition, and a thread handles what it has taken. |
| Crew.AllGone | src/core/worker_work_parallelly.c:29-49 | When every thread has read 0 and left, no task is queued and no worker is busy. |
| Crew.CrewResult | src/core/worker_work_parallelly.c:68-77 | All threads having left, the nodes are those of a complete sequential run and the cells have fused the same pairing: the counter never lets the crew leave an unfinished net behind. |
| Crew.CrewIsSequential | src/core/worker_work_parallelly.c:68-77 | The same against any given complete sequential run, with equally many interactions. |
| Crew.CrewProgress | src/core/worker_work_parallelly.c:24-50 | As long as one thread has not left, some thread can take a step; as long as one is handling a task, one that is handling a task can, so waiting for node locks blocks nobody for ever. |
| Crew.CrewWorkEnds | src/core/worker_work_parallelly.c:24-50 | If one sequential run finishes, then in every run of the threads all steps that take, work, push, count or subtract together are at most a number computed from the program and that run; only looking at the counter and at empty deques can go on. |
| CrewFinish.CrewCanFinish | src/core/worker_work_parallelly.c:24-50 | If one sequential run finishes, then from wherever the threads have got to, they can go on until every one of them has read 0 and left. |
| Scheduler.Prepare | src/core/worker_work_parallelly.c:52-66 | Each worker gets the tasks whose number leaves its index as remainder, in order; the counter is their number. |
| Scheduler.DealtInTurn | src/core/worker_work_parallelly.c:52-66 | The k-th task a worker is dealt is the one whose place is the worker's index plus k times the number of workers, and no such task is missing. |
| Scheduler.CounterCoversQueue | src/core/worker_add_task.c:5-11 | Although a task is pushed before it is counted, the counter never falls below the number of queued tasks; reading 0 means all deques are empty. |
| Scheduler.FinishKeeps | src/core/worker_work_parallelly.c:42-46 | Subtracting a handled task never takes the counter below 0, and keeps the invariant. |
| Scheduler.GoneStays | src/core/worker_work_parallelly.c:29-49 | A worker that has left stays away, and nobody can put anything into its deque afterwards. |
| Scheduler.NothingLost | src/core/worker_work_parallelly.c:24-50 | Once all workers have left, every task ever created has been handled exactly as often as it was created, the counter is 0 and all deques are empty. |
| Scheduler.EachOnce | src/core/worker_work_parallelly.c:3-50 | In every reachable state each task created is in one deque, or with one worker, or handled: stealing neither loses nor doubles one. |
| Scheduler.Progress | src/core/worker_work_parallelly.c:24-50 | Every worker that has not left can take a step: the protocol itself never blocks. |
| Scheduler.CounterReadsZero | src/core/worker_add_task.c:5-11 | The counter is 0 if and only if all deques are empty and every worker with a task has pushed another one that is not counted yet. |
| Scheduler.CounterMayReadZero | src/core/worker_add_task.c:5-11 | A run in which the counter does read 0 while a worker is handling a task. |
| Scheduler.VictimsInOrder | src/core/worker_work_parallelly.c:12-14 | For every cursor, a thief robs itself if and only if it is alone or it is the first worker, the number of workers divides the largest cursor and the cursor is the one before that; short of the cursor wrapping round it goes through the others in order. |
| NatSystem.EachCompiles | examples/datatypes/nat.fth:5-62 | Compiling the eight rule bodies, token by token, gives the opcodes the theorems below run, numbered locals included. |
| NatSystem.NatsGood | examples/datatypes/nat.fth:5-62 | Each of the eight bodies, run on any ends, uses every end exactly once and leaves nothing: the requirements above hold of these rules. |
| Combinators.AnnihilatorsGood | examples/combinators/CDE.fth:9-23 | The three rules of a combinator with its own kind use every end exactly once and do not tell their two sides apart, so all theorems hold of them: a rule between equal constructors can meet what is required of it. |
| NatArith.ReduceAdd | examples/datatypes/nat.fth:5-14 | Inside any net, an `add` facing the numbers m and n turns into m + n in exactly m + 1 interactions, uses up exactly the agents of the two numbers and itself, and leaves everything else alone. |
| NatArith.ReduceErase | examples/datatypes/nat.fth:23-30 | An eraser facing k takes k + 1 interactions to leave nothing of the number or of itself. |
| NatMul.ReduceDup | examples/datatypes/nat.fth:32-46 | A duplicator facing k makes two separate copies of k in k + 1 interactions. |
| NatMul.ReduceMul | examples/datatypes/nat.fth:48-62 | Inside any net, a `mul` facing m and n turns into their product, although each unfolding exchanges the two operands; the measure is m + n. |
| NatTrees.Evaluate | examples/datatypes/nat.fth:5-62 | An expression tree of any shape inside any net reduces to its value in a number of interactions computed from the expression, touching nothing outside. |
| NatPrograms.ProgramEvaluates | examples/datatypes/nat.fth:16-19 | The net a postfix program builds when its compiled code is run is well formed and has a complete run that ends in the value of the expression and no other agent. |
| NatPrograms.EveryOrder | examples/datatypes/nat.fth:5-62 | Whatever the order of interactions, a complete run of such a program takes the same computed number of them and leaves the value and nothing else. |
| NatPrograms.AnyStart | examples/datatypes/nat.fth:5-62 | However a run began, it can be continued to the value, and it has at most that many interactions. |
| NatPrograms.MulNumerals | examples/datatypes/nat.fth:48-62 | `m n mul` ends in the numeral m * n with no other node left over, in any order, for all m and n. |
| NatPrograms.AddNumerals | examples/datatypes/nat.fth:3-14 | `m n add` ends in m + n after exactly m + 1 interactions, in any order. |
| NatParallel.ParallelExpression | examples/datatypes/nat.fth:5-62 | However many workers share an expression, in whatever interleaving of memory accesses, when they are done memory shows its value and nothing else. |
| NatParallel.CrewExpression | src/core/worker_work_parallelly.c:68-77 | The same for threads with deques and a counter, once all of them have left. |
| Execution.CallSteps | src/core/worker_run_until.c:31-66 | If calling a function has a result, the machine, started on a fresh frame above any return stack, is back at that return stack with that result after exactly the steps counted; dropping a frame before its last opcode makes no difference. |
| Execution.CallEnds | src/core/worker_run_until.c:61-66 | Every call of a compiled function is over after exactly as many steps as its calls written out in line have opcodes, empty functions counting one: either it is back at its base or it has crashed by then, whatever the values are. |
| Execution.AssignedReadsSet | src/core/frame.c:55-63 | Code in which each local is set earlier than it is read never reads an unset variable, through all calls. |
| Compiler.BodyAgrees | src/lang/compile_one.c:29-114 | Preservation of meaning: opcodes with numbered locals, from any frame that agrees with an environment of names, leave the same world as reading the tokens with that environment, and are stuck exactly when the tokens have no meaning. |
| Compiler.BodyShape | src/lang/compile_one.c:66-103 | Compiled code calls only functions that existed before it, applies a callable right where it is named, and sets each local before reading it. |
| Compiler.InterpretedCompiles | src/lang/compile_one.c:29-114 | Whatever has a meaning is compiled: the compiler turns down no meaningful body. |
| Primitives.StackWords | src/prelude/value.c:7-47 | Whatever lies below, `dup`, `drop`, `swap`, `over`, `tuck` and `rot` turn x, or x y, or x y z on top into x x, nothing, y x, x y x, y x y, y z x, and touch neither the rest of the stack nor the net. |
| Primitives.StackLaws | src/prelude/value.c:7-47 | `swap swap`, `rot rot rot`, `dup drop` and `over drop` change nothing; `tuck` is `swap over`. |
| Primitives.TooFew | src/prelude/value.c:7-47 | With fewer values on the stack than a word takes, it fails. |
| Primitives.LinkGives | src/prelude/net.c:17-23 | `link` puts the two ends of one wire on the stack, a wire whose name nothing has yet, and makes that wire and no other. |
| Primitives.LinkConnects | src/prelude/net.c:3-23 | Connecting l to the one end that `link` gives and r to the other leaves the same pairing as connecting l and r, the same nodes and the same ends in hand. |
| Primitives.NumbersRun | src/lang/compile_one.c:3-14 | A body of integers and of names that stand for one compiles, and running it leaves exactly these integers on the stack in order. |
| Loader.Loader.CompileBind | src/lang/compile_one.c:29-64 | Takes the names up to `)`, numbers each new one, reuses the number of a name seen before, and pops them in reverse; it fails exactly when `)` is missing. |
| Loader.Loader.CompileOne | src/lang/compile_one.c:105-114 | The three attempts in turn do what one step of the compiling function says: the same opcodes, the same local numbers, the same rest of the tokens, and failure in the same cases. |
| Loader.Loader.CompileFunction | src/lang/compile_function.c:3-17 | The loop up to `end` yields the opcodes of the whole body and consumes it with its `end`, and fails exactly where the compiling function does. |
| Loader.Loader.DefineFunction | src/prelude/function.c:3-8 | The name is not known inside its own body; when a body compiles and the name is new, the name leads to the new function, and otherwise nothing is defined under it. |
| Loader.Loader.DefineRule | src/prelude/net.c:138-154 | A rule is added exactly when both names are constructors and the body compiles. |
| Loader.Mod.DefineRule | src/core/mod.c:33-57 | After the pushes the arrays of all constructors hold exactly their rules in the order of declaration, a rule between equal constructors once. |
| Loader.LoadedFunctionsEnd | src/prelude/function.c:3-8 | Every function of a mod the loader can get to, called on any stacks, ends after a number of steps fixed by the code, with the world its own tokens mean, or crashes exactly when they mean nothing. |
| SourceText.BodyFromText | src/core/worker.c:3-16 | Words none of which is an integer, with any blanks, line breaks and comments between them, reach the compiler as exactly those words in order. |
| SourceText.ProgramFromText | src/core/worker.c:3-16 | However a program is laid out and commented, the compiler is given its words in order, integers with the value they stand for, and its strings with each escape replaced. |
| SourceText.LeadingGap | src/core/worker.c:3-16 | Blanks and comments before the first word make no difference. |
| Worker.Worker.ReconnectNode | src/core/worker_reconnect_node.c:34-83 | Inputs are popped from the last to the first, outputs pushed from the first to the last; the principal ports, the wires put between a principal end and a slot, and the connections come in the order of the program; it fails exactly on too few values or a value that is no end. |
| Worker.Worker.RunOneStep | src/core/worker_run_until.c:31-59 | One step on mutable frames is one step of the machine on values; frames below the top one stay untouched. |
| Worker.Worker.RunUntil | src/core/worker_run_until.c:61-66 | The loop ends; it succeeds exactly when the call has a result, and then the return stack is as it was below and the world is that result. |
| Worker.Worker.DisconnectNode | src/core/worker_disconnect_node.c:3-36 | The ends in the slots land on the value stack in the order of the ports without the principal one, above what was there, and the node is gone. |
| Worker.Worker.HandleTask | src/core/worker_handle_task.c:33-40 | One interaction on mutable stacks: the two nodes are gone, what happens to the net is what the body does to the ends of the left node and then of the right one, and both stacks are as before below it. |
| Worker.CallDeeper | src/core/worker_run_until.c:61-66 | A call that has a result does the same above any deeper stack: it never looks below its own arguments. |
| Ring.MaskIsRemainder | src/packages/std/queue/queue.c:111-119 | Masking with one less than a power of two is the remainder. |
| Ring.SlotOfCount | src/packages/std/queue/queue.c:111-119 | The slot of a 64-bit cursor that has wrapped round any number of times is the slot of the unbounded count it stands for. |
| Queue.Queue.PushBack | src/packages/std/queue/queue.c:146-159 | Appends and says yes exactly when there are fewer values than slots, and otherwise changes nothing, across wrapped cursors and with a stale cached cursor. |
| Queue.Queue.PopFront | src/packages/std/queue/queue.c:161-174 | Takes out the oldest value, or null exactly when there is none. |
| Queue.Queue.Get | src/packages/std/queue/queue.c:176-187 | Null exactly when the queue is empty; for an index inside the value that many places behind the oldest; for any other index, which is not refused, whatever is in the slot it falls on. |
| Queue.Queue.Purge | src/packages/std/queue/queue.c:61-69 | Hands all values to the destroy function in order and leaves the queue empty. |
| Queue.FirstInFirstOut | src/packages/std/queue/queue.c:146-174 | One producer and one consumer, any interleaving of their loads and stores: the values popped are a prefix of those pushed, never more are inside than slots, and each unread value is still in its slot. |
| Queue.CallsTakeEffect | src/packages/std/queue/queue.c:146-174 | What is in the queue or came out of it is exactly what the calls asked to push, in order, without the calls that ended on a full queue and the one under way; what the pops have answered is exactly what came out, in order, and every pop answers. A call is over after at most four steps of its own thread, whatever the other thread does. |
| Queue.RefusedOnlyWhenTrue | src/packages/std/queue/queue.c:146-174 | At the acquire load a push is refused if and only if the queue is full then, a pop if and only if it is empty then. |
| Allocator.OnePlace | src/packages/std/allocator/allocator.c:24-79 | In every reachable state of any threads each node made is in exactly one of the shared stack, one cache, one thread's hands, one holder; what was not made is in none. |
| Allocator.NotTwice | src/net/node_allocator.c:42-52 | A node about to be handed out is one that was made and that nobody holds. |
| Allocator.Bounded | src/packages/std/allocator/allocator.c:56-69 | No cache ever exceeds twice the cache size, and one thread at a time has the mutex. |
| Allocator.FlagsAtRest | src/net/node_allocator.c:42-58 | When no thread is inside the allocator, a node is flagged as allocated exactly when somebody holds it. |
| Allocator.Progress | src/packages/std/allocator/allocator.c:24-79 | A thread inside can go on or waits for one that can. |
| AllocatorCalls.AllocateDoes | src/net/node_allocator.c:42-52 | When a thread is at rest again after allocating, its call has put exactly one node into use, marked it, and taken none out of use; nobody used that node just before; if the thread's cache was not empty it is the top of that cache, after three steps. |
| AllocatorCalls.RecycleDoes | src/net/node_allocator.c:54-58 | When a thread is at rest again after recycling, that node and no other has gone out of use through the call, is unmarked, and lies on top of the thread's cache, from which one cache size has gone to the shared stack first if it was full; the number of the thread's own steps depends on that alone. |
| AllocatorCalls.AllocateEnds | src/net/node_allocator.c:42-52 | A thread that nobody disturbs gets its node within the cache size plus the batch size plus eleven steps, whatever the others hold. |
| AllocatorCalls.BatchDoes | src/net/node_allocator.c:3-15 | A batch is as many new nodes as its size says, with the next numbers, all put on the shared stack in order, whatever other threads try meanwhile. |
| AllocatorCalls.RefillDoes | src/packages/std/allocator/allocator.c:24-42 | An empty cache is refilled with one cache size from the top of the shared stack, or with all there is, the topmost first. |
| Hash.Hash.Rehash | src/packages/std/hash/hash.c:139-174 | The next prime is taken, the map is the same, and the count of used buckets is right afterwards whatever it was. |
| Hash.Hash.Set | src/packages/std/hash/hash.c:285-291 | Adds a new key, refuses one that is there without touching its value, grows when overloaded; the length is the number of keys. |
| Hash.Hash.Put | src/packages/std/hash/hash.c:293-308 | The map with this key set to this value, whether it was there or not. |
| Hash.Hash.WhenOverloaded | src/packages/std/hash/hash.c:278-283 | Where the multiplication does not overflow, a table is overloaded exactly when it has three quarters of its buckets as entries, or half of them in use, rounded down. |
| Hash.Hash.Get | src/packages/std/hash/hash.c:206-212 | The value last put under the key, null if there is none, across all growing. |
| Hash.Hash.Delete | src/packages/std/hash/hash.c:244-276 | The map without the key; the count of used buckets stays right if and only if the entry was not the first of a chain that goes on. |
| Hash.EmptyOverload | src/packages/std/hash/hash.c:244-283 | Because of that count, two keys of one bucket that have come and gone leave an empty table that believes it is overloaded. |
| Hash.EachOnce | src/packages/std/hash/hash.c:323-343 | Going through bucket after bucket one comes across every key of the map once, with its value, and nothing else. |
| Hash.Hash.First | src/packages/std/hash/hash.c:310-316 | Starts the walk at the first entry of that enumeration, or says null if the table is empty. |
| Hash.Hash.Next | src/packages/std/hash/hash.c:323-343 | Goes to exactly the next entry of it, within a chain or past empty buckets, and says null at the end. |
| Hash.Hash.ValueList | src/packages/std/hash/hash.c:345-355 | The values up to the first null one; all of them, each once, if no value is null. |
| Traversal.NewAdjacency | src/net/node_adjacency.c:3-24 | Finds ports of the two nodes that face each other exactly when there are some: the first port of the one that faces any, and the first port of the other that it faces. |
| Traversal.BuildAdjacencies | src/net/node_adjacency.c:36-60 | Every node gets the list of its neighbours in the order of the nodes, each entry with the node it starts from, the node it leads to and the two ports that face each other; one node leads to another exactly when some of their ports face. |
| Traversal.ListedOnce | src/net/node_adjacency.c:36-60 | Each entry of such a list names two ports that do face each other, and if no node comes twice, no two entries lead to the same node. |
| Traversal.BuiltSymmetric | src/net/node_adjacency.c:36-60 | What is built for a net is symmetric. |
| Traversal.ConnectedNodes | src/net/connected_node_iter.c:54-67 | Ends with exactly the nodes reachable from the root, each once, the root first. |
| Traversal.Component | src/net/connected_node_iter.c:42-67 | From any two nodes of a net: either each is found from the other and exactly the same nodes are found from both, or neither is found from the other. |
| Aftermath.LeftAtRest | src/core/worker_work_parallelly.c:68-77 | What any parallel run leaves in cells and nodes is as between two calls of `connect`, with the opposites read off the matching, and its nodes are those of a complete sequential run. |
| Aftermath.Remains | src/net/node_adjacency.c:36-60 | A store made of it meets all that the walk through connected nodes asks for. |
| Aftermath.FacesLeft | src/net/wire.c:57-69 | In it two unconnected wire ends face each other exactly when they do in the net of the sequential run. |
| Path.JoinTwice | src/packages/std/path/path.c:143-154 | Joining `a/b` is joining `a` and then `b`, for all strings. |
| Path.OneSegment | src/packages/std/path/path.c:122-141 | The empty segment and `.` change nothing, a name goes on top, `..` takes the last name off, and goes on top itself where there is none to take. |
| Path.Shortened | src/packages/std/path/path.c:122-154 | For all strings, joining `a/./b`, `a//b` and `a/name/../b` is joining `a/b`. |
| Path.Reparse | src/packages/std/path/path.c:86-154 | The string of every normal path is read back as that path, with the same kind. |
| Path.JoinedNormal | src/packages/std/path/path.c:122-154 | Whatever is joined to a normal path, the result is normal: `..` only at the front, no `.`, no empty segment. |
| Path.RelativeJoined | src/packages/std/path/path.c:175-217 | Joining the way from one path to another onto the first leads to the other if and only if what the first has beyond the common part contains no `..`. |
| Path.RelativeMayFail | src/packages/std/path/path.c:193-217 | From `../x` to `y` it leads elsewhere. |
| Path.Path.Join | src/packages/std/path/path.c:143-154 | On the segment stack: the segments are executed one after another, and the string is brought up to date. |
| Path.Path.RelativeTo | src/packages/std/path/path.c:193-217 | Two loops that give a new relative path: steps up for what the first has beyond the common part, then what the second has. |
| Text.DecodeEncode | src/packages/std/utf8/utf8.c:22-129 | Decoding after encoding is the identity for every code point up to 0x10FFFF, whatever bytes follow, although continuation bytes may keep a stray bit (section 3 of RFC 3629 gives the layout). |
| Text.StandardExactly | src/packages/std/utf8/utf8.c:84-129 | The bytes written are those of section 3 of RFC 3629 if and only if certain bits of the code point are 0. |
| Text.NotStandard | src/packages/std/utf8/utf8.c:98-104 | U+00E9 is written as C3 E9 instead of C3 A9. |
| Text.LastCodePoint | src/packages/std/utf8/utf8.c:84-129 | Exactly the code points up to 0x10FFFF are encoded. |
| Text.DecodeStandard | src/packages/std/utf8/utf8.c:22-68 | Whatever is written in the encoding of section 3 of RFC 3629 is decoded as the code point it stands for, whatever follows. |
| Text.ReadStandard | src/packages/std/text/text.c:27-43 | A whole text in that encoding is read as what it says, up to the first zero. |
| Text.StandardExamples | src/packages/std/utf8/utf8.c:84-129 | The encoding these theorems speak of gives the bytes of the examples in section 7 of RFC 3629. |
| Text.TextRoundTrip | src/packages/std/text/text.c:27-126 | A text of code points up to 0x10FFFF comes back from its string unchanged if and only if the code point 0 is not in it. |
| Text.TextToString | src/packages/std/text/text.c:112-126 | The loop over one buffer of four bytes for each code point and one more never leaves it, and yields the encoding cut at the first null byte. |
| Text.TextFromString | src/packages/std/text/text.c:27-43 | Counting and then decoding fills the array with exactly the code points of the string. |
| Lexer.Lexer.Step | src/packages/std/lexer/lexer.c:255-263 | Each step moves the cursor forward, and what it added together with what the rest gives is what the whole gives; it fails only where the reading as a whole does. |
| Lexer.Lexer.CollectString | src/packages/std/lexer/lexer.c:164-223 | On a quote it makes one token, moves forward, and the rest of the text continues the reading of the whole; it fails only where the text has no reading; on anything else it does nothing. |
| Lexer.Lexer.Run | src/packages/std/lexer/lexer.c:292-310 | The loop ends and gives exactly the tokens of the text, or fails exactly when the text has none. |
| Layout.OverComment | src/packages/std/lexer/lexer.c:109-131 | A comment ends with its line, and what follows is read as if it were not there; one without a line end goes on to the end of the text. |
| Layout.OverBlank | src/packages/std/lexer/lexer.c:90-107 | Space, tab, line feed, vertical tab, form feed and carriage return before a text make no difference. |
| Layout.FirstDelimiter | src/packages/std/lexer/lexer.c:55-66 | Of several delimiters the text starts with, the first of the list counts, not the longest. |
| Layout.NoDelimiter | src/packages/std/lexer/lexer.c:55-66 | Where the text starts with none of them, no delimiter is found. |
| Layout.ReadString | src/packages/std/lexer/lexer.c:164-223 | A string of up to 1024 characters, each itself or one of eight escapes, is read as the characters these stand for, up to the first null. |
| Layout.CStringEnds | src/packages/std/lexer/lexer.c:201-206 | A token is a C string: what follows a null character in the buffer is lost, and without one nothing is. |
| Layout.StringFails | src/packages/std/lexer/lexer.c:164-223 | A string with an unknown escape, without an end, or of more than 1024 characters makes the lexer fail. |
| Layout.ReadWord | src/packages/std/lexer/lexer.c:225-253 | A word up to the next blank or delimiter is read as it stands, and makes the lexer fail exactly if it has more than 1024 characters. |
| Layout.Positions | src/packages/std/lexer/lexer.c:68-80 | Lines and columns count from 1; a line feed begins a line, any other character is one column. |
| Sexps.RoundTrip | src/packages/std/sexp/sexp.c:61-165 | For every tree: parsing what is printed for it gives back exactly it if and only if its words could be written, no string is a lone parenthesis or too long, and no string has a quote, backslash or null character in it. |
| Sexps.QuoteLost | src/packages/std/sexp/sexp.c:118-135 | A string with a quote, which parsing can give, is printed as it is and read back as two atoms. |
| Sexps.ParsedLegal | src/packages/std/sexp/sexp.c:89-107 | Every tree that parsing gives is legal. |
| Sexps.ParsedWhen | src/packages/std/sexp/sexp.c:63-107 | A text is turned down exactly when the lexer turns it down or a closing parenthesis closes nothing. |
| Sexps.LeftOpen | src/packages/std/sexp/sexp.c:63-87 | A list left open at the end of the tokens is accepted and holds all that follows. |
| Sexps.TokenList.ParseSexp | src/packages/std/sexp/sexp.c:63-87 | Shifting tokens off a shared list, in mutual recursion with the reading of a list, gives the tree at its front and leaves exactly the tokens behind it, and ends. |
| Sexps.ParseText | src/packages/std/sexp/sexp.c:89-107 | Lexing and then parsing until no token is left gives the list of trees, and fails exactly when the text has no tokens. |

## Left out

- Net.SymmetricRule: asks for plain equality of the two effects. A rule between equal constructors whose body builds
  agents, symmetric only up to the names of what it builds, is excluded by it.
- Combinators.AnnihilatorsGood: the other three rules of that example, between different constructors, are left out.
- Links.JoinPartner: only the pairing; the exchange, the freed wire and what is returned are in `Heap.Store.Connect`.
- Links.PartnerInvolution: says that the pairing is a matching and nothing about changes to it.
- ParallelHolders.OneHolder: for ends of wires. What a worker has on its stack or in its locals while it runs a body
  appears as what its body is still going to connect or to put into slots.
- Worker.Worker.HandleTask: what a body does to the net is a list of actions; `Heap.Store` and the parallel machine
  perform such actions, the worker on mutable stacks does not.
- Worker.Worker.RunUntil: for compiled code, as the loader makes it.
- Heap.Store.Connect: the `opposite` fields are modelled here and not in the parallel machine.
- SourceText.BodyFromText: for words; strings are in `SourceText.ProgramFromText`. Which words are integers, and which,
  is a parameter of both, because it rests on `strtol`.
- Hash.Hash.Rehash: not for a table at the last of its primes. There the source compares the new index with the size
  in bytes of its table, lets it through and reads past the end (src/packages/std/hash/hash.c:142), which has no
  meaning in C.
- Hash.Hash.Set: not for an overloaded table at the last of its primes, for the same reason.
- Hash.Hash.Put: not for an absent key in such a table, for the same reason.
- Lexer.Lexer.Step: an empty delimiter, which would match everywhere, is left out.
- Allocator.OnePlace: nodes here are numbers and in the nets they are named by their makers; the two are not tied
  together, and the numbers a node gets for printing are not part of the model.
- Integers, floats and strings flowing through wires; arithmetic on them; float tokens.
- Weak memory orders: every load, store and exchange is one step of an interleaving. Each operation of a deque is one
  step. Unlocking a node and recycling it is one step.
- Primitives that load, run or define from inside a body, and imports.
- The two ends of a wire are distinguished by a label; in memory they are one address held twice.
- The limit of 64 variables in a frame.
- A machine with one processor, for which the number of workers is 0.
- The rules for `nat-max`.
- Releasing memory, other than wires and nodes; destroy functions of hashes.
- The current directory, files, printing to the console, commands, timing.
