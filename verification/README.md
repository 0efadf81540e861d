# A verified model of the RTX kernel

The repository is a small preemptive real-time executive for a ColdFire board: five
priority levels, a fixed-block memory allocator, direct and delayed messages, a
millisecond tick and a console command decoder. This project models the executive
twice and proves the two descriptions equal.

* **The pointer-level kernel** keeps the program's own form: PCBs and block headers
  linked through `next` fields, three arrays of five queue heads, two fixed mailbox
  arrays that are shifted in place, block contents as bytes of one RAM array, and
  methods with the program's loops (`Scheduler.dfy`, `Allocator.dfy`, `Kernel.dfy`,
  `Console.dfy`, `Decimal.dfy`).
* **The state machine on values** (`SchedSpec.dfy`, `KernelSpec.dfy`, `SweepSpec.dfy`,
  `Runs.dfy`) describes each primitive as a function on sequences and maps. A run is
  any interleaving of traps by the running process and timer ticks, and it carries a
  history: messages that entered the mailbox, messages handed over, delayed messages
  issued and moved, and the step in which each process joined its list.

Every handler method is proved to compute exactly the function of its step, so
`Refinement.BootAndRun` can show that the pointer-level kernel, booted and driven by
any legal sequence of steps, ends in the state the state machine predicts and gives
every caller the predicted answer. The theorems about runs then hold of it. The central
one is `Reachable.Always`: for any table of processes, any number of blocks and any legal
run, all invariants below hold in the state reached.

## What is proved

* Each step: `StepLaws.dfy` says what every step of a run does to the whole kernel and
  what it returns, in terms of the state before it: which process runs, sleeps or wakes,
  all fifteen lists, every block, both mailboxes and the time. `BootLaws.dfy` says the
  same of the boot and `ConsoleLaws.dfy` of a message to the console.
* Scheduler: every live process other than the running one and main is in exactly the
  one list that its state and priority name; nobody ready outranks the running process,
  and preemption happens at once but only when it must; all fifteen lists are in order of
  arrival, so the processor goes to whoever has been ready longest at the best level; the
  null process runs exactly when nobody else is ready; yielding rotates a level; the
  lists agree with the process table.
* Memory: free, held, mailed and postponed blocks partition the blocks of boot; no memory
  wake-up is lost, including barging requests and processes that a message wakes inside
  a memory wait; a release wakes the longest waiter of the best level; every block that
  is handed out is all zeros; all free blocks are nobody's exactly from the first request
  on.
* Messages: for each process, what entered the mailbox for it is what it was handed,
  followed by what still waits, in order and byte for byte; nobody sleeps beside a
  message of its own; neither mailbox can overflow.
* Delayed messages: what one sweep does, with the exact condition under which it leaves
  a due message behind; the order over whole runs; bounds on when a message moves.
* Console: what the line buffer and the table of commands hold after any messages, which
  command the lookup loop picks, and that decimal printing and parsing are inverse.

## Where the code differs from its stated intent

* The sweep is meant to move every due message. When all slots of the delayed mailbox
  are taken, the shift loop stops at the end of the array and the index is not stepped
  back (`submit/messaging/messaging.c:419-431`), so the message after the first due one
  is passed over. `PassedOver.PassedOverFromBoot` is such a run from boot,
  `PassedOver.PassesOverIff` the exact condition, `PassedOver.OneBlockIsEnough` what a
  client can do about it, and `DelayedOrder.Deadline` the bound that holds in any case.
* A released block is marked as owned by nobody, but the first block starts with the
  zero left by `malloc` (`submit/mm/mem.c:37-50`). `Owners.OwnerlessIff`: all free blocks
  are nobody's exactly when the run contains a request.
* A message also wakes a receiver that is waiting for memory
  (`submit/core/core.c:455-476`). The retry loop makes this harmless; the memory
  wake-up theorem includes it.
* A console line is kept to 64 characters without a NUL behind them, and the copy of a
  line or of a command stops only at a NUL. `Console.CopyOfLine` and
  `Console.Kcd.RegisterCommand` say exactly when the copy is complete.

## Assumptions

* A handler runs to its end without interruption, together with the block or release of
  the processor it ends in. A context switch changes the running process and the queues,
  nothing else.
* Process ids in the table are distinct, the null process comes first at level 4 and all
  others start at levels 0 to 3. The null process makes no kernel calls, as its body is
  an empty loop.
* A process sends, writes or releases only blocks it obtained by a request or a receive
  and has not passed on since. Calls that the kernel refuses need no block. A process
  that sleeps inside a request or a receive repeats that call when it runs again.
* Times and process ids are unsigned 32-bit words: a tick and the sum of a delay and the
  time wrap. The order of delayed messages is stated for runs in which no time wraps and
  some block is outside the delayed mailbox at every tick; `Deadline` assumes that the
  ticks of the run stay below the wrap.
* The number of blocks and of processes is arbitrary; a block has 128 bytes.
* Where the C code would leave a string buffer or a signed word, or follow a null header,
  the routine reports that instead of going on.

## Layout

| file | content |
|---|---|
| `Base.dfy`, `Envelope.dfy` | constants, sequences, the header words of a block |
| `SchedSpec.dfy`, `SchedLaws.dfy` | the scheduler on values, its shape invariant and laws |
| `SweepSpec.dfy`, `KernelSpec.dfy` | the sweep, the allocator and the handlers on values |
| `Runs.dfy`, `Safety.dfy` | runs, client discipline, the core invariant and that steps keep it |
| `MemoryWaits.dfy`, `WaitOrder.dfy`, `Delivery.dfy`, `DelayedOrder.dfy` | the other invariants |
| `Outcomes.dfy`, `StepLaws.dfy`, `BootLaws.dfy` | what each step and the boot do, in terms of the state before |
| `Reachable.dfy`, `Owners.dfy`, `PassedOver.dfy` | boot, the theorems about every reachable state, owners of free blocks, passed-over messages |
| `Links.dfy`, `Scheduler.dfy`, `Allocator.dfy`, `Kernel.dfy` | the pointer-level kernel |
| `Refinement.dfy` | the pointer-level kernel performs the runs |
| `Console.dfy`, `ConsoleLaws.dfy`, `Decimal.dfy` | command decoder, what it sends, decimal printing and parsing |

## Model

| member | source | states |
|---|---|---|
| Reachable.Always | submit/core/core.c:1016-1071 | Every state that any legal run reaches from boot satisfies all invariants: scheduler shape and strict priority, block conservation and ownership, no lost wake-up, exact delivery, order of delayed messages, zeroed free blocks, queues in order of arrival. |
| Reachable.RunInv | submit/messaging/messaging.c:62-463 | A run of any length keeps all invariants. |
| Reachable.InvStep | submit/mm/mem.c:201-321 | Each of the ten steps (request, receive, release, send, delayed send, set priority, yield, exit, write, tick) keeps all invariants. |
| Reachable.BootInv | submit/core/initialize.c:49-142 | The booted kernel satisfies all invariants, for any good process table and any number of blocks. |
| Reachable.StrictPriority | submit/core/core.c:862-879 | In a reachable state no ready process has a better priority than the running one, and main is not running. |
| Reachable.Conservation | submit/mm/mem.c:216-226 | Free, held, mailed and postponed blocks partition the blocks, which are those of boot by BlocksOfBoot; a block on its way is used and owned by its receiver; a process about to send always finds an empty slot in both mailboxes. |
| Reachable.BlocksOfBoot | submit/mm/mem.c:36-56 | After any legal run from boot the free and the used list together are a permutation of the blocks that init_memory made. |
| Reachable.ReleaseCodes | submit/mm/mem.c:259-305 | Release returns 0 exactly for a used block of the caller, 1 exactly when no block is used, 2 exactly for a pointer that is no block, else 3; a refused release changes nothing. |
| Reachable.ReleaseTwice | submit/mm/mem.c:293-313 | The holder can release a block; it becomes the last free one, owned by nobody, and a second release of it is refused for everybody. |
| Owners.OwnerlessIff | submit/mm/mem.c:37-50 | After any legal run from boot, all free blocks have owner -1 if and only if some process has called request; until then the first block is free and has owner 0. Every other free block always has owner -1. |
| Owners.UnownedStep | submit/mm/mem.c:307-312 | Once all free blocks are nobody's, every step keeps them so. |
| Owners.UntouchedStep | submit/mm/mem.c:216-226 | The first request takes the first block, which mends the owners; every other step before it leaves the allocator as it was. |
| Reachable.PriorityReported | submit/core/core.c:572-591 | Through any blocking, waking, switching and refused calls, a live process reports the priority last set for it. |
| Reachable.LevelStep | submit/core/core.c:620-729 | A step other than a successful set changes nobody's priority and creates no process. |
| Reachable.StillThere | submit/core/core.c:731-757 | A process alive at the end of a run was alive throughout: termination is final. |
| Reachable.NeverStuck | submit/mm/mem.c:209-214 | In every reachable state the running process has a legal call: a yield from its own code, or the repetition of the call it is in. |
| Reachable.GoesOn | submit/messaging/messaging.c:176-178 | From every reachable state there are legal runs of any length in which every step is a call of the running process, except while the null process runs. |
| StepLaws.TickLaw | submit/messaging/messaging.c:381-463 | A tick advances the wrapped time and moves the due messages, all but the one it passes over, in order to the end of the mailbox. Exactly the sleeping receivers of moved messages become ready, behind those already ready. The running process goes on unless one of them outranks it; then the first of the most urgent runs and the old one is last at its level. Without a sleeping receiver the scheduler is unchanged. |
| StepLaws.ReceiveLaw | submit/messaging/messaging.c:188-269 | With no message for the caller it sleeps, last in the message list of its level, null is returned and the head of the best ready list runs; otherwise the first message for it leaves the mailbox and is returned, and nothing else changes. |
| StepLaws.RequestLaw | submit/mm/mem.c:201-235 | With no free block the caller sleeps, last in the memory list of its level, and the head of the best ready list runs; otherwise it gets the first free block, now the last used one and its own, and nothing else changes. |
| StepLaws.ReleaseLaw | submit/mm/mem.c:259-321 | The codes 1, 2, 3 and 0 under their conditions; a refusal changes nothing. A released block is zeroed, nobody's and last of the free list. If nobody waits for memory the scheduler is unchanged; else the head of the best memory list is ready and runs exactly if it outranks the caller, which then is last at its level. |
| StepLaws.SendCodes | submit/messaging/messaging.c:90-100 | Both sends return 2 exactly for a null pointer, 1 exactly for a receiver that neither runs nor is in any of the fifteen lists, else 0, and a refused send changes nothing. |
| StepLaws.SendLaw | submit/messaging/messaging.c:62-159 | Those codes; an accepted message is last in the mailbox with its header and new owner, and a receiver that sleeps for anything wakes up and runs exactly if it outranks the sender; if it does not sleep the scheduler is unchanged. |
| StepLaws.DelayedSendLaw | submit/messaging/messaging.c:299-379 | The same codes; an accepted message is last in the delayed mailbox with its header, wrapped send time and new owner, and the scheduler is unchanged. |
| StepLaws.SetLaw | submit/core/core.c:620-729 | Codes 2, 3, 4 and 0 under their conditions; an error, or a set to the present level, changes nothing. Any other set moves the process to the end of its new list, or lets it run, or makes the running process give way, with all fifteen lists stated. |
| StepLaws.YieldLaw | submit/core/core.c:777-927 | The head of the caller's own ready list runs and the caller is last in it; if that list is empty nothing changes. |
| StepLaws.ExitLaw | submit/core/core.c:731-757 | The caller is in no table and no list, the head of the best ready list runs, and every other process keeps its priority, its sleep and its place. |
| StepLaws.ExitIsFinal | submit/core/core.c:731-757 | After an exit no legal run brings the process back: it is in no table, does not run and is in no list. |
| StepLaws.WriteLaw | submit/io/kcd.c:55-57 | A store of the running process into a block it holds changes the bytes of that block and nothing else. |
| BootLaws.StartLaw | submit/core/core.c:1061-1064 | After the first release the first of the most urgent rows of the process table runs and all other rows stand in the ready lists of their levels in table order. |
| BootLaws.AdmittedLists | submit/core/initialize.c:104-135 | Before that, every ready list holds the rows of its level in table order, and nobody sleeps. |
| BootLaws.BootLaw | submit/mm/mem.c:27-56 | The booted kernel also has all blocks free, adjacent, zeroed and in address order, the first owned by process 0 and the others by nobody, no message and time 0. |
| Outcomes.BlockOtherLaw | submit/core/core.c:373-437 | Blocking a process that neither runs nor sleeps takes it out of its ready list to the end of the list of sleepers of its level; the running process goes on. |
| Refinement.BootAndRun | submit/core/core.c:1016-1071 | The pointer-level kernel, booted and driven by any legal run, is in exactly the state of the state machine, that state satisfies all invariants, and every call got the code or pointer of the state machine. |
| Refinement.RunAll | submit/core/core.c:1024-1040 | From any invariant state the handlers together perform the run and give every caller the answer of the state machine. |
| Refinement.Perform | submit/messaging/messaging.c:27-35 | The handler installed for a step has exactly the effect of that step and returns exactly its code or pointer, null when the caller was put to sleep. |
| MemoryWaits.NoLostMemoryStep | submit/mm/mem.c:209-226 | While a process sleeps for memory, there are at most as many free blocks as processes woken inside the request loop that have not retried; every step keeps this. |
| MemoryWaits.SleeperIsServed | submit/mm/mem.c:209-214 | If somebody sleeps for memory and a block is free, some process is awake inside a request and has yet to look again. |
| MemoryWaits.FreeIsZeroStep | submit/mm/mem.c:307-312 | Every step keeps all free blocks zeroed, since only holders write. |
| MemoryWaits.RequestGivesZeros | submit/mm/mem.c:216-229 | A requested block reads as 128 zero bytes. |
| WaitOrder.WaitedStep | submit/core/core.c:254-286 | Every step keeps each of the fifteen lists in the order in which its members joined it. |
| WaitOrder.FairStep | submit/core/core.c:207-356 | In every step, whoever stays in a list keeps its place relative to the others and newcomers stand behind them; at most one process goes to sleep. |
| WaitOrder.HeadIsOldest | submit/core/core.c:504-534 | The head of the best non-empty list of a family has the best priority of that family and joined first among its equals. |
| WaitOrder.LongestWaiter | submit/mm/mem.c:314-316 | A successful release makes exactly that longest-waiting, most urgent sleeper ready. |
| WaitOrder.LongestReady | submit/core/core.c:862-879 | When the running process sleeps, ends or yields to somebody at its level, the next one has the best priority of all ready processes and has been ready longest among its equals. |
| Delivery.FifoStep | submit/messaging/messaging.c:126-135 | For every process, what entered the mailbox for it equals what it was handed followed by what still waits, in order and with its bytes; every step keeps this. |
| Delivery.ReceiveFifo | submit/messaging/messaging.c:208-248 | A receive hands over the oldest message for the caller and disturbs nobody else's order. |
| Delivery.TickFifo | submit/messaging/messaging.c:391-402 | Matured messages join behind those already in the mailbox, each exactly once. |
| Delivery.NoLostMailStep | submit/messaging/messaging.c:250-256 | A process asleep for a message has none in the mailbox; every step keeps this. |
| Delivery.SentMessage | submit/messaging/messaging.c:107-135 | An accepted message is the last of the mailbox, names receiver and sender, belongs to the receiver and keeps the sender's other bytes; no other block changes. |
| Delivery.PostponedMessage | submit/messaging/messaging.c:345-367 | An accepted delayed message also carries the wrapped sum of delay and time, is the last of the delayed mailbox and wakes nobody. |
| DelayedOrder.InDueOrderStep | submit/messaging/messaging.c:352-367 | While no tick passed over a due message and no time wrapped, the moved messages are the issued ones due so far by max(send time, issue tick + 1) and issue order, and the delayed mailbox holds the rest in issue order; every step keeps this. |
| DelayedOrder.MovedInDueOrder | submit/messaging/messaging.c:388-431 | In such a run the moved messages are sorted by that key and each key keeps its issued messages in issue order: a stable sort. |
| DelayedOrder.BucketsSorted | submit/messaging/messaging.c:388-431 | The specification sequence is sorted by due tick. |
| DelayedOrder.BucketsStable | submit/messaging/messaging.c:388-431 | For each due tick it contains exactly the messages issued with it, in issue order. |
| DelayedOrder.NeverEarly | submit/messaging/messaging.c:391-398 | A message leaves the delayed mailbox only at a tick, not before its send time, and is then in the mailbox. |
| DelayedOrder.OnTime | submit/messaging/messaging.c:388-431 | At a tick that passes over nobody every due message moves. |
| DelayedOrder.Deadline | submit/messaging/messaging.c:419-431 | Even when ticks pass over messages, one that is due moves within (its index + 1) ticks, whatever else the run does. |
| PassedOver.PassesOverIff | submit/messaging/messaging.c:419-431 | In a reachable state a tick passes over a due message if and only if every block of the kernel is in the delayed mailbox and the message behind the first due one is due as well. |
| PassedOver.OneBlockIsEnough | submit/messaging/messaging.c:388-431 | If any block is free, held or in the mailbox, the next tick moves exactly the due messages and keeps the others in order. |
| PassedOver.PassedOverFromBoot | submit/messaging/messaging.c:428-431 | From boot with two blocks, for any process table: the first process requests both and delays both by one tick; the tick delivers the first and leaves the second, which is due. |
| PassedOver.OneStaysBehind | submit/messaging/messaging.c:428-431 | The same from every reachable state in which the running process holds both blocks. |
| PassedOver.RoomyIsPunctual | submit/messaging/messaging.c:388-431 | A run in which some block is outside the delayed mailbox at every tick and no time wraps passes over nobody. |
| PassedOver.RoomyRunsAreSorted | submit/messaging/messaging.c:352-431 | In such a run from boot the moved messages are the stable sort of the delayed sends by due tick, and the delayed mailbox holds exactly the ones that are not due, in order of issue. |
| SweepSpec.SweepExactIff | submit/messaging/messaging.c:388-451 | A sweep moves exactly the due entries and keeps exactly the others, in order, if and only if the array is not full on entry or the entry after the first due one is absent or not due. |
| SweepSpec.SweepLeavesOne | submit/messaging/messaging.c:428-431 | The only due entry that can stay is the one right after the first due entry. |
| SweepSpec.SweepEntry | submit/messaging/messaging.c:388-431 | Nothing that is not due moves; a due entry moves or comes one slot closer to the front. |
| SweepSpec.SweepConserves | submit/messaging/messaging.c:394-426 | A sweep neither loses nor duplicates an entry. |
| SchedLaws.ListsAreDisjoint | submit/core/core.h:31-34 | No process is in two of the fifteen lists or twice in one. |
| SchedLaws.ScanAgrees | submit/core/core.c:135-168 | A pid is found by the running slot and the fifteen lists exactly when it is live (main only while it runs). |
| SchedLaws.RemoveFinds | submit/core/core.c:207-252 | Removal finds its target in the list its state and priority name; all others keep their order and every other list is unchanged. |
| SchedLaws.WokenGoesLast | submit/core/core.c:465-476 | A woken process leaves its blocked list and becomes the last of its ready level; everybody else keeps place and state. |
| SchedLaws.MovedGoesLast | submit/core/core.c:678-695 | A waiting process whose priority changes becomes the last of its new level in the same family; everybody else keeps place and state. |
| SchedLaws.NullIsIdle | submit/core/initialize.c:54 | The null process is running or is all of ready level 4, and runs exactly when nobody else is ready. |
| SchedLaws.RoundRobin | submit/core/core.c:862-879 | k yields rotate the n processes of the running level by k mod n and leave every other list alone. |
| SchedLaws.YieldRotates | submit/core/core.c:862-879 | One yield rotates the running level by one. |
| SchedLaws.WakePreempts | submit/core/core.c:478-489 | A process woken by pid runs at once if it outranks the running process; otherwise the running process goes on. |
| SchedLaws.ReleasePreempts | submit/core/core.c:525-547 | The waiter that a release wakes runs at once if it outranks the running process; otherwise the running process goes on. |
| SchedLaws.TickPreempts | submit/messaging/messaging.c:433-456 | A series of wake-ups with one release at its end hands over to the first process, in that order, among those of the best priority if it outranks the running one; otherwise the running process stays. StepLaws.TickLaw says it of the tick. |
| SchedLaws.SetPreempts | submit/core/core.c:677-723 | After a set, a ready process that now outranks the running one runs at once; a running process that was lowered goes on if nobody ready is at its new level or better, and else gives way to the head of the best ready list; otherwise the running process goes on. |
| SchedLaws.BlockRunsNext | submit/core/core.c:403-429 | A process that blocks waits last at its level, and the processor goes to the head of the best ready list. |
| SchedLaws.ExitRunsNext | submit/core/core.c:743-756 | The processor of a process that ends goes to the head of the best ready list. |
| SchedLaws.SetThenGet | submit/core/core.c:620-729 | A set returns 0, 2, 3 or 4 under exactly the coded conditions; after 0 the new priority is reported, after an error nothing has changed. |
| SchedSpec.SwitchSteady | submit/core/core.c:777-927 | From a state of good shape a switch ends in a steady state: good shape, a real process running, nobody better ready, and no waiting process changed. |
| SchedSpec.BlockSteady | submit/core/core.c:373-437 | Blocking the running process ends in a steady state in which exactly that process has gone to sleep. |
| SchedSpec.BlockPidSteady | submit/core/core.c:373-437 | Blocking any process but the null process, running or not, ends in a steady state in which exactly that process has gone to sleep; an unknown or sleeping one changes nothing. |
| SchedSpec.WakeShape | submit/core/core.c:439-476 | Waking keeps the shape, makes exactly the given blocked process ready and changes nothing else in the process table. |
| SchedSpec.UnblockPidSteady | submit/core/core.c:439-490 | Unblocking by pid with preemption ends in a steady state. |
| SchedSpec.UnblockTypeSteady | submit/core/core.c:492-548 | Unblocking by type wakes the head of the best level of that family and ends in a steady state. |
| SchedSpec.SetPrioritySteady | submit/core/core.c:620-729 | A set in either direction, on the running or another process, ends in a steady state and changes only that level. |
| SchedSpec.TerminateSteady | submit/core/core.c:731-757 | Termination removes exactly the running process and ends in a steady state. |
| SchedSpec.WakeManySteady | submit/messaging/messaging.c:433-456 | Waking any number of receivers without preemption and then releasing once, if a better one was woken, ends in a steady state. |
| SchedSpec.RemoveShape | submit/core/core.c:207-252 | Removal leaves its process in no list and all others at home. |
| SchedSpec.EnqueueShape | submit/core/core.c:254-286 | Enqueueing a process that is in no list brings it home. |
| SchedSpec.PopShape | submit/core/core.c:303-339 | The process taken is the head of the best non-empty level and is then in no list. |
| SchedSpec.FirstFrom | submit/core/core.c:312-324 | The best non-empty level: all levels before it are empty and it is not, or all five are empty. |
| Safety.CoreStep | submit/messaging/messaging.c:62-463 | Every step keeps the core invariant: steady scheduler, every block in one place with its lists and owner agreeing, and sleepers only inside the call that put them to sleep. |
| Safety.TickBlocks | submit/messaging/messaging.c:388-426 | A tick keeps every block in exactly one place. |
| Safety.TickFits | submit/messaging/messaging.c:394-408 | The messages in the mailbox and those a tick moves fit one array together: the store loop never runs out of slots. |
| Runs.Room | submit/messaging/messaging.c:394-408 | Both mailboxes together fit one array, and strictly so while any block is free or held. |
| Boot.AdmittedShape | submit/core/initialize.c:106-135 | After n table rows the process table holds main and exactly those n processes, new and with their own priorities, and all of them are queued at home. |
| Boot.StartedSteady | submit/core/core.c:1061-1064 | The first release of the processor leaves main for good and reaches a steady state. |
| Envelope.WordRoundTrip | submit/shared/rtx_msg.h:13-21 | A header word reads back as stored, and words elsewhere in the block are unchanged. |
| Envelope.AddressedFields | submit/messaging/messaging.c:107-120 | A send sets the receiver and the sender and keeps every later byte. |
| Envelope.StampedFields | submit/messaging/messaging.c:345-352 | A delayed send sets receiver, sender and send time and keeps every other byte behind the first two words. |
| Envelope.HeaderBytes | submit/shared/rtx_msg.h:13-21 | Where the header is: the sender in bytes 0 to 3, the receiver in 4 to 7, the send time in 12 to 15, most significant byte first. |
| SchedulerImpl.Scheduler.constructor | submit/core/core.c:1044-1050 | Fifteen empty lists, main outside of them, nobody running. |
| SchedulerImpl.Scheduler.InitializeProcesses | submit/core/initialize.c:104-135 | The loop puts a PCB for each row at the end of its ready list: exactly the boot state. |
| SchedulerImpl.Scheduler.EnqueueProcess | submit/core/core.c:254-301 | The pointer writes append the process to the list of its priority and keep all links intact. |
| SchedulerImpl.Scheduler.Last | submit/core/core.c:278-279 | The walk ends at the last process of the list. |
| SchedulerImpl.Scheduler.RemoveProcess | submit/core/core.c:207-252 | The pointer writes take the process out of the list its state and priority name, wherever it is, and do nothing to the running process. |
| SchedulerImpl.Scheduler.Before | submit/core/core.c:235-247 | The walk finds the unique predecessor, or there is none and the process is in no list. |
| SchedulerImpl.Scheduler.DequeueProcess | submit/core/core.c:303-356 | The head of the best non-empty level leaves its list; null exactly when all five are empty. |
| SchedulerImpl.Scheduler.GetProcessByPid | submit/core/core.c:135-168 | The scan of fifteen linked lists returns the PCB of the live process with that pid, or null. |
| SchedulerImpl.Scheduler.GetCurrentPid | submit/core/core.c:170-178 | The pid of the running process, or -1. |
| SchedulerImpl.Scheduler.IsPidValid | submit/core/core.c:180-189 | True exactly for a pid that the scan finds. |
| SchedulerImpl.Scheduler.IsProcessBlocked | submit/core/core.c:358-371 | True exactly for a live process asleep for memory or a message. |
| SchedulerImpl.Scheduler.GetProcessPriority | submit/core/core.c:572-591 | The priority in the process table, or -1. |
| SchedulerImpl.Scheduler.BlockProcess | submit/core/core.c:373-437 | The in-place block of the process with a given pid, running, waiting, already asleep or unknown, is that of the state machine, and the scheduler stays steady unless it is the null process. |
| SchedulerImpl.Scheduler.UnblockProcessByPid | submit/core/core.c:439-490 | The in-place wake-up, with or without preemption, is the step of the state machine, for a process asleep for memory or a message. |
| SchedulerImpl.Scheduler.UnblockProcessByType | submit/core/core.c:492-548 | The in-place wake-up by type is the step of the state machine. |
| SchedulerImpl.Scheduler.SetProcessPriority | submit/core/core.c:620-729 | Result code, move between lists and preemption are those of the state machine. |
| SchedulerImpl.Scheduler.ReleaseProcessor | submit/core/core.c:862-927 | The choice of the next process is that of the state machine. |
| SchedulerImpl.Scheduler.TerminateRunning | submit/core/core.c:743-756 | The running process loses its PCB and the next one is chosen as in the state machine. |
| SchedulerImpl.Scheduler.Start | submit/core/core.c:1061-1064 | Boot ends with the first process running in a steady state. |
| AllocatorImpl.Allocator.constructor | submit/mm/mem.c:27-56 | All blocks, adjacent and zeroed, are in the free list in address order; none is used. |
| AllocatorImpl.Allocator.AddBlocks | submit/mm/mem.c:42-53 | The loop with its tail pointer builds the free list of all blocks. |
| AllocatorImpl.Allocator.VoidToBlock | submit/mm/mem.c:325-351 | The search of both lists returns the header of a known block, and null for every other pointer. |
| AllocatorImpl.Allocator.EnqueueMemBlock | submit/mm/mem.c:84-101 | The pointer writes append the block to the given list and keep the other list. |
| AllocatorImpl.Allocator.DequeueMemBlock | submit/mm/mem.c:104-121 | The first block of either list leaves it; null exactly when the list is empty, and then nothing changes. |
| AllocatorImpl.Allocator.RemoveMemBlock | submit/mm/mem.c:123-180 | A block of the given list that belongs to the caller leaves it wherever it is; otherwise, and for a null header, the result is null and nothing changes. |
| AllocatorImpl.Allocator.TakeBlock | submit/mm/mem.c:216-229 | The first free block becomes the last used block, owned by the caller. |
| AllocatorImpl.Allocator.GiveBlock | submit/mm/mem.c:266-312 | Result code, zeroing, owner and lists after a release are those of the state machine. |
| AllocatorImpl.Allocator.ReassignMemBlock | submit/mm/mem.c:76-81 | Exactly the owner of the block changes. |
| AllocatorImpl.Allocator.ZeroMemory | submit/mm/mem.c:354-360 | Exactly the 128 bytes of the block become zero in RAM. |
| AllocatorImpl.Allocator.LoadWord | submit/messaging/messaging.c:220 | The bytes in RAM give the header word of the block. |
| AllocatorImpl.Allocator.StoreWord | submit/messaging/messaging.c:107-120 | Exactly the four bytes of the header word change in RAM, and no other block. |
| Mailboxes.NewBox | submit/messaging/messaging.c:21-25 | An array of empty slots. |
| Mailboxes.StoreEntry | submit/messaging/messaging.c:126-135 | The scan stores the message in the first empty slot, so messages stay a gap-free prefix. |
| Mailboxes.RemoveEntry | submit/messaging/messaging.c:222-234 | The slot is cleared and the shift loop closes the gap: the prefix without that entry, ending where the loop stopped. |
| KernelImpl.CoreIsSound | submit/messaging/messaging.c:404-408 | Every state of a run meets what the handlers rely on. |
| KernelImpl.Executive.constructor | submit/core/core.c:1044-1064 | The booted pointer-level kernel is the boot state of the state machine. |
| KernelImpl.Executive.RequestMemoryBlock | submit/mm/mem.c:201-235 | One turn of the request loop: a block or sleep, exactly as in the state machine. |
| KernelImpl.Executive.ReleaseMemoryBlock | submit/mm/mem.c:259-321 | Code, state and wake-up of a release. |
| KernelImpl.Executive.SendMessage | submit/messaging/messaging.c:62-159 | Code, header bytes, new owner, mailbox and wake-up of a send, error cases included; a pointer that is no block, sent to a live process, is reported. |
| KernelImpl.Executive.DelayedSendMessage | submit/messaging/messaging.c:299-379 | Code, header bytes with the wrapped send time, new owner and delayed mailbox; a pointer that is no block, sent to a live process, is reported. |
| KernelImpl.Executive.FindMessage | submit/messaging/messaging.c:208-220 | The scan that stops at the first empty slot finds the first message for the caller if there is one anywhere. |
| KernelImpl.Executive.ReceiveMessage | submit/messaging/messaging.c:188-269 | The first message for the caller leaves the mailbox, or the caller sleeps; null is returned only with sleep. |
| KernelImpl.Executive.CheckExistingDelayedMessage | submit/messaging/messaging.c:381-463 | The in-place loop that moves, shifts and rewinds its index terminates and has exactly the effect of one sweep, with one release of the processor at the end. |
| KernelImpl.Executive.TimerInterrupt | submit/timer/timer.c:32-45 | A tick advances the wrapped time and sweeps. |
| KernelImpl.Executive.ReleaseProcessor | submit/core/core.c:777-927 | A yield of the running process. |
| KernelImpl.Executive.SetProcessPriority | submit/core/core.c:620-729 | Code and state of a set. |
| KernelImpl.Executive.TerminateProcess | submit/core/core.c:731-757 | The end of a process. |
| Console.BufferMeans | submit/io/kcd.c:78-154 | After any input the buffer holds the first 64 characters since the last percent sign that no return has closed, padded with NULs, and is empty if there is none. |
| Console.CopyOfLine | submit/io/kcd.c:133-137 | The text of a typed line reaches its receiver up to its first NUL exactly when the line is shorter than 64 characters or holds a NUL within them; otherwise the copy leaves its buffers. |
| Console.LongLine | submit/io/kcd.c:99-137 | A typed line of 64 letters that begins with a registered command finds that command, and its text does not fit. |
| Console.ServedMeans | submit/io/kcd.c:33-157 | However characters, registrations and clear commands interleave, the line is what was typed and the table is what was registered, in order. |
| Console.ClearScreen | submit/io/kcd.c:47-54 | A typed clear command comes back to the console as a message; serving that message sends a form feed to the screen and changes neither the line nor the table. |
| ConsoleLaws.CharacterLaw | submit/io/kcd.c:58-155 | After any messages, a character goes on to the screen, a return with a newline behind it, and joins the input. A return that closes a line sends one message more, to the owner of the first registered command that the line begins with, followed by a space, a NUL or the end of the line; it carries the line up to its first NUL. Without such a command, or without an open line, nothing more is sent. |
| ConsoleLaws.RegisterLaw | submit/io/kcd.c:47-49 | A registration sends nothing and keeps the line. Text with a leading percent sign and an end joins the table as its last command, up to its first NUL and with its sender as the owner; text without the sign changes nothing. |
| ConsoleLaws.ClearLaw | submit/io/kcd.c:50-57 | A message with "clr" behind its first character sends one form feed to the screen and changes neither line nor table. |
| Console.Earliest | submit/io/kcd.c:99-119 | The specification of the lookup: the first registered command that is a prefix of the line followed by a space or NUL. |
| Console.Kcd.constructor | submit/io/kcd.c:192-194 | An empty buffer and no commands. |
| Console.Kcd.Lookup | submit/io/kcd.c:99-119 | The single loop over the list of commands and the characters terminates and returns the earliest matching command. |
| Console.Kcd.Input | submit/io/kcd.c:78-154 | One character changes the buffer as specified; a return sends the text of a completed line, up to its first NUL, to the process of the earliest matching command, and otherwise nothing to anybody. |
| Console.Kcd.Handle | submit/io/kcd.c:44-155 | One message is served as specified: a registration joins the table, a clear message sends a form feed to the screen, a character message goes on to the screen, a return with a newline behind it, and is typed. |
| Console.Kcd.Begin | submit/io/kcd.c:30-31 | The first registered command is the clear command, for the console itself. |
| Console.Kcd.RegisterCommand | submit/io/kcd.c:217-247 | A command with a leading percent sign joins the end of the list with its text up to the first NUL; any other string changes nothing; a string without a NUL among its first 64 characters is reported as leaving the buffer. |
| Console.ResetBuffer | submit/io/kcd.c:162-171 | All 64 characters become NUL. |
| Console.StrCopy | submit/shared/rtx_util.c:3-8 | The copy into any other buffer replaces its first characters by the string up to its NUL and keeps the rest; it stays inside both buffers exactly when a NUL comes at the latest right behind the last character that fits. |
| Decimal.RoundTrip | submit/shared/rtx_util.c:10-30 | Parsing the decimal notation of any number gives the number. |
| Decimal.DigitsParse | submit/shared/dbug.c:57-61 | The digit loop yields a non-empty digit string that denotes the number, without a leading zero unless the number is zero. |
| Decimal.ParseDigits | submit/shared/rtx_util.c:19-29 | Printing the value of a digit string without leading zero gives the string back. |
| Decimal.DigitAt | submit/shared/dbug.c:57-61 | The digit k places from the right is n / 10^k % 10. |
| Decimal.PrintInt | submit/shared/dbug.c:53-69 | The push and pop loops put out the decimal notation and the final NUL. |
| Decimal.AsciiToInt | submit/shared/rtx_util.c:10-30 | The loop returns the value of a digit string and -1 for the empty string or any other character; the running value leaves a signed 32-bit word exactly when that of the leading digits does. |
| Decimal.PrintThenParse | submit/shared/dbug.c:53-69 | For every number below 2^31, the parse loop run on what the print loops put out gives the number back, and its running value never overflows. |

## Left out

- Registers, trap frames, stacks, the status register and all assembly and linker files: a context switch only changes who runs and the queues.
- The atomic counter and the points inside a handler at which it is briefly zero: handlers are atomic here, as they are meant to be.
- The serial driver, the screen process and the serial interrupt, which requests and sends in the name of whichever process it interrupts.
- The wall clock, the stress processes, the priority command handler, the loader and all test processes. One of the stress processes releases a stale pointer, so it does not keep the client discipline.
- The initialisation blocks as a linked list: the process table is a sequence in the same order, and stack allocation is not modelled.
- Debug printing and the list printers.
- Message contents beyond the header words: blocks are byte sequences, but nothing is said about the type word or the text.
- KernelImpl.Executive.SendMessage: what happens after a pointer that is no block was accepted is not modelled, since the code then writes outside of every block and follows a null header.
- KernelImpl.Executive.DelayedSendMessage: the same.
- Console.Kcd.Handle: the messages it names are not passed through the mailboxes here, and what happens after a copy has left its buffers is not modelled.
