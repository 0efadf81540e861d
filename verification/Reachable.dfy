// The booted kernel, and what holds in every state any legal run can reach.
module Boot {
  import opened Rtx
  import opened Seqs
  import opened Envelope
  import opened SchedSpec
  import opened AllocSpec
  import opened KernelSpec
  import opened Runs

  // One row of the initialisation table.
  datatype Pib = Pib(pid: Pid, priority: nat)

  // The null process comes first; pids are distinct and other priorities are 0..3.
  ghost predicate GoodTable(table: seq<Pib>) {
    && |table| > 0 && table[0] == Pib(NULL_PID, NULL_PRIORITY)
    && (forall i | 0 <= i < |table| :: table[i].pid < MAIN_PID)
    && (forall i | 1 <= i < |table| :: table[i].priority < NULL_PRIORITY)
    && (forall i, j | 0 <= i < j < |table| :: table[i].pid != table[j].pid)
  }

  function Admit(s: Sched, row: Pib): Sched {
    Enqueue(s.(procs := s.procs[row.pid := Proc(New, row.priority)]), ReadyQ, row.pid)
  }

  // initialize_processes
  function Admitted(table: seq<Pib>): Sched {
    if table == [] then Sched(map[MAIN_PID := Proc(Ready, MAIN_PRIORITY)], map[], None)
    else Admit(Admitted(table[..|table| - 1]), table[|table| - 1])
  }

  // The end of main(): run main, then release the processor.
  function Started(table: seq<Pib>): Sched {
    Switch(Admitted(table).(running := Some(MAIN_PID)))
  }

  function Blocks(base: Addr, cap: nat): seq<Addr> {
    seq(cap, i requires 0 <= i < cap => base + i * MEM_BLOCK_SIZE)
  }

  // init_memory: the heap is zeroed by malloc, and the first block keeps pid 0.
  function FreshAlloc(base: Addr, cap: nat): Alloc {
    var blocks := Blocks(base, cap);
    Alloc(blocks, [], map p | p in blocks :: if p == base then 0 else NO_OWNER,
          map p | p in blocks :: Zeros(MEM_BLOCK_SIZE))
  }

  function BootKernel(table: seq<Pib>, base: Addr, cap: nat): Kernel {
    Kernel(Started(table), FreshAlloc(base, cap), [], [], 0, cap)
  }

  function BootWorld(table: seq<Pib>, base: Addr, cap: nat): World {
    var k := BootKernel(table, base, cap);
    World(k, Hist(map p | p in k.sched.procs :: Own, map p | p in k.alloc.free :: Free,
                  [], [], [], [], true, 1, map p | p in k.sched.procs :: 0))
  }

  // The process table holds main and the first n rows, each with its own priority.
  ghost predicate Rows(s: Sched, table: seq<Pib>, n: nat)
    requires n <= |table|
  {
    && (forall i | 0 <= i < n :: table[i].pid in s.procs && s.procs[table[i].pid] == Proc(New, table[i].priority))
    && (forall p | p in s.procs :: p == MAIN_PID || exists i :: 0 <= i < n && table[i].pid == p)
  }

  // The first n rows have been admitted, all of them are queued at home, and nothing
  // else has happened.
  ghost predicate Admits(s: Sched, table: seq<Pib>, n: nat)
    requires n <= |table|
  {
    && Base(s) && Queued(s, {MAIN_PID}) && s.running == None && Rows(s, table, n)
    && (n > 0 ==> Idle(s))
    && (forall l: nat :: s.Q(Slot(MemQ, l)) == [])
    && (forall p | p in s.procs :: !IsBlocked(s.procs[p].state))
  }

  lemma RowsNext(s: Sched, table: seq<Pib>, n: nat)
    requires GoodTable(table) && 0 < n <= |table| && Rows(s, table, n - 1)
    ensures Rows(Admit(s, table[n - 1]), table, n)
    ensures table[n - 1].pid !in s.procs && (n == 1 ==> forall p | p in s.procs :: p == MAIN_PID)
  {
    var row, t := table[n - 1], Admit(s, table[n - 1]);
    forall p | p in t.procs && p != MAIN_PID
      ensures exists i :: 0 <= i < n && table[i].pid == p
    {
      if p == row.pid {
        assert table[n - 1].pid == p;
      }
    }
  }

  lemma AdmitNext(s: Sched, table: seq<Pib>, n: nat)
    requires GoodTable(table) && 0 < n <= |table| && Admits(s, table, n - 1)
    ensures Admits(Admit(s, table[n - 1]), table, n)
  {
    hide Queued, Rows;
    var row := table[n - 1];
    var u := s.(procs := s.procs[row.pid := Proc(New, row.priority)]);
    RowsNext(s, table, n);
    NewcomerShape(s, row);
    EnqueueShape(u, {MAIN_PID, row.pid}, row.pid);
    assert {MAIN_PID, row.pid} - {row.pid} == {MAIN_PID};
    forall l: nat ensures Admit(s, row).Q(Slot(MemQ, l)) == [] {
      assert s.Q(Slot(MemQ, l)) == [] && u.Q(Slot(MemQ, l)) == [];
    }
  }

  lemma {:induction false} AdmittedShape(table: seq<Pib>, n: nat)
    requires GoodTable(table) && n <= |table|
    ensures Admits(Admitted(table[..n]), table, n)
  {
    hide Base, Idle, Queued;
    if n == 0 {
      FirstRow();
    } else {
      AdmittedShape(table, n - 1);
      assert table[..n][..n - 1] == table[..n - 1];
      AdmitNext(Admitted(table[..n - 1]), table, n);
    }
  }

  lemma FirstRow()
    ensures Base(Admitted([])) && Queued(Admitted([]), {MAIN_PID})
  {
    var s := Admitted([]);
    forall slot ensures GoodList(s, {MAIN_PID}, slot) {
    }
  }

  lemma NewcomerShape(s: Sched, row: Pib)
    requires Queued(s, {MAIN_PID}) && row.pid !in s.procs
    ensures Queued(s.(procs := s.procs[row.pid := Proc(New, row.priority)]), {MAIN_PID, row.pid})
  {
    var u := s.(procs := s.procs[row.pid := Proc(New, row.priority)]);
    forall slot ensures GoodList(u, {MAIN_PID, row.pid}, slot) {
      assert GoodList(s, {MAIN_PID}, slot) && u.Q(slot) == s.Q(slot);
    }
    forall p | p in u.procs && p !in {MAIN_PID, row.pid} ensures AtHome(u, p) {
      assert AtHome(s, p) && u.Q(Home(u, p)) == s.Q(Home(s, p));
    }
  }

  lemma StartedSteady(table: seq<Pib>)
    requires GoodTable(table)
    ensures Steady(Started(table)) && SameWaits(Admitted(table), Started(table))
    ensures forall p | p in Started(table).procs :: !IsBlocked(Started(table).procs[p].state)
    ensures forall l: nat :: Started(table).Q(Slot(MemQ, l)) == []
  {
    hide Queued, NoneBefore, Admitted;
    AdmittedShape(table, |table|);
    assert table[..|table|] == table;
    var s := Admitted(table);
    var t := s.(running := Some(MAIN_PID));
    SameQueued(s, t, {MAIN_PID});
    SwitchSteady(t);
    forall l: nat ensures Switch(t).Q(Slot(MemQ, l)) == [] {
      assert s.Q(Slot(MemQ, l)) == [] && t.Q(Slot(MemQ, l)) == [];
    }
  }

  lemma FreshBlocks(base: Addr, cap: nat)
    requires base > 0
    ensures NoDup(Blocks(base, cap)) && NULL !in Blocks(base, cap)
    ensures |Elems(Blocks(base, cap))| == cap == |Blocks(base, cap)|
  {
    forall i, j | 0 <= i < j < cap
      ensures Blocks(base, cap)[i] != Blocks(base, cap)[j]
    {
    }
    ElemsSize(Blocks(base, cap));
  }
}

module Reachable {
  import opened Rtx
  import opened Seqs
  import opened Envelope
  import opened SchedSpec
  import opened AllocSpec
  import opened KernelSpec
  import opened Runs
  import opened Boot
  import Safety
  import opened MemoryWaits
  import opened Delivery
  import opened DelayedOrder
  import opened WaitOrder

  ghost predicate Inv(w: World) {
    && Core(w)
    && NoLost(w) && FreeIsZero(w) && Waited(w)
    && NoLostMail(w.k) && (forall p :: Fifo(w, p))
    && InDueOrder(w)
  }

  lemma BootCore(table: seq<Pib>, base: Addr, cap: nat)
    requires GoodTable(table) && base > 0
    ensures Core(BootWorld(table, base, cap))
  {
    hide Steady, BlocksOk, Started;
    StartedSteady(table);
    BootBlocks(table, base, cap);
  }

  // At boot every block is free.
  lemma BootBlocks(table: seq<Pib>, base: Addr, cap: nat)
    requires base > 0
    ensures var w := BootWorld(table, base, cap); BlocksOk(w.k, w.h.place) && w.h.place.Keys == Elems(Blocks(base, cap))
  {
    hide Started;
    FreshBlocks(base, cap);
    var w := BootWorld(table, base, cap);
    assert w.h.place.Keys == Elems(Blocks(base, cap));
    assert |w.h.place| == |w.h.place.Keys|;
  }

  // At boot everybody has been ready for the same time, and nobody sleeps.
  lemma BootOrder(s: Sched, since: map<Pid, nat>)
    requires Steady(s) && since.Keys == s.procs.Keys && forall p | p in since :: since[p] == 0
    requires forall p | p in s.procs :: !IsBlocked(s.procs[p].state)
    ensures InOrder(s, since)
  {
    forall slot ensures Oldest(s.Q(slot), since, Apart(slot.kind)) {
      assert GoodList(s, Outside(s), slot);
      assert s.Q(slot) != [] ==> s.Q(slot)[0] in s.Q(slot);
    }
  }

  lemma BootInv(table: seq<Pib>, base: Addr, cap: nat)
    requires GoodTable(table) && base > 0
    ensures Inv(BootWorld(table, base, cap))
  {
    hide Steady, Started, BlocksOk, PcOk, Rx;
    BootCore(table, base, cap);
    StartedSteady(table);
    var w := BootWorld(table, base, cap);
    assert Sleepers(w.k.sched) == {};
    BootOrder(w.k.sched, w.h.since);
  }

  lemma InvStep(w: World, step: Step)
    requires Inv(w) && Enabled(w, step)
    ensures Inv(Do(w, step))
  {
    hide Steady, BlocksOk, PcOk, NoLost, FreeIsZero, Waited, NoLostMail, Fifo, InDueOrder, Effect, Enabled;
    Safety.CoreStep(w, step);
    NoLostMemoryStep(w, step);
    FreeIsZeroStep(w, step);
    WaitedStep(w, step);
    NoLostMailStep(w, step);
    InDueOrderStep(w, step);
    forall p ensures Fifo(Do(w, step), p) {
      FifoStep(w, step, p);
    }
  }

  lemma {:induction false} RunInv(w: World, steps: seq<Step>)
    requires Inv(w) && Legal(w, steps)
    ensures Inv(Run(w, steps))
    decreases |steps|
  {
    hide Inv, Do, Enabled;
    if steps != [] {
      InvStep(w, steps[0]);
      RunInv(Do(w, steps[0]), steps[1..]);
    }
  }

  // Every state that any legal run reaches from the booted kernel, for any table
  // of processes and any number of blocks, satisfies all the invariants.
  lemma Always(table: seq<Pib>, base: Addr, cap: nat, steps: seq<Step>)
    requires GoodTable(table) && base > 0 && Legal(BootWorld(table, base, cap), steps)
    ensures Inv(Run(BootWorld(table, base, cap), steps))
  {
    hide Inv, BootWorld;
    BootInv(table, base, cap);
    RunInv(BootWorld(table, base, cap), steps);
  }

  // ---------- runs exist: the discipline never leaves a process without a move ----------

  // What a process can always do next: repeat the call it is in, or give up the
  // processor. The null process only waits for a tick.
  function NextMove(w: World): Step {
    var pid := w.k.Current();
    if pid == NULL_PID || pid !in w.h.pc then Tick else
      match w.h.pc[pid]
      case Own => Yield
      case InRequest => Step.Request
      case InReceive => Step.Receive
  }

  lemma NeverStuck(w: World)
    requires Inv(w)
    ensures Enabled(w, NextMove(w)) && Enabled(w, Tick)
    ensures w.k.Current() != NULL_PID ==> NextMove(w) != Tick
  {
    hide BlocksOk, NoLost, FreeIsZero, Waited, NoLostMail, Fifo, InDueOrder, Queued, NoneBefore;
  }

  // A legal run goes on for as long as one likes, and always by a call of the running
  // process unless that is the null process.
  lemma {:induction false} GoesOn(w: World, n: nat) returns (steps: seq<Step>)
    requires Inv(w)
    ensures |steps| == n && Legal(w, steps) && Busy(w, steps)
    decreases n
  {
    hide Inv, Do, Enabled, NextMove;
    steps := [];
    if n > 0 {
      var step := NextMove(w);
      NeverStuck(w);
      InvStep(w, step);
      var rest := GoesOn(Do(w, step), n - 1);
      steps := [step] + rest;
      assert steps[1..] == rest;
    }
  }

  ghost predicate Busy(w: World, steps: seq<Step>)
    requires Legal(w, steps)
    decreases |steps|
  {
    steps == [] || ((steps[0] == Tick ==> w.k.Current() == NULL_PID) && Busy(Do(w, steps[0]), steps[1..]))
  }

  // ---------- what the invariants say, in the kernel's own terms ----------

  // No ready process outranks the running one, and main never runs again.
  lemma StrictPriority(w: World, p: Pid)
    requires Inv(w) && p in w.k.sched.procs && p != MAIN_PID
    requires KindOf(w.k.sched.procs[p].state) == ReadyQ
    ensures w.k.sched.running.Some? && w.k.Current() != MAIN_PID && w.k.Current() in w.k.sched.procs
    ensures w.k.sched.procs[w.k.Current()].priority <= w.k.sched.procs[p].priority
  {
    if p != w.k.Current() {
      assert AtHome(w.k.sched, p);
    }
  }

  // Free, held, mailbox and delayed blocks partition the cap blocks, and both
  // mailboxes together always fit into one of the two arrays.
  lemma Conservation(w: World)
    requires Inv(w)
    ensures var k, held := w.k, Holdings(w.h.place);
      && (forall p :: p in w.h.place <==> p in k.alloc.free || p in held || p in k.mailbox || p in k.delayed)
      && (forall p | p in k.alloc.free :: p !in held && p !in k.mailbox && p !in k.delayed)
      && (forall p | p in k.mailbox :: p !in held && p !in k.delayed)
      && (forall p | p in k.delayed :: p !in held)
      && |k.alloc.free| + |held| + |k.mailbox| + |k.delayed| == k.cap
    ensures forall p | p in w.k.mailbox || p in w.k.delayed ::
      p in w.k.alloc.used && w.k.alloc.owner[p] == Rx(w.k.alloc.Mem(p))
    ensures forall p | HeldBy(w, p, w.k.Current()) :: |w.k.mailbox| < w.k.cap && |w.k.delayed| < w.k.cap
  {
    hide Steady, PcOk, NoLost, FreeIsZero, Waited, NoLostMail, Fifo, InDueOrder, Rx;
    Room(w.k, w.h.place);
    Count(w.k, w.h.place);
  }

  // ---------- the blocks are those of boot ----------

  lemma PlacesStay(w: World, step: Step)
    requires Core(w) && Enabled(w, step)
    ensures Do(w, step).h.place.Keys == w.h.place.Keys
  {
    hide Steady, PcOk, Rx, SetPriority, UnblockType, UnblockPid, BlockRunning, Switch, WakeMany, Stamped, Addressed;
    match step
    case Request => assert w.k.alloc.free != [] ==> w.k.alloc.free[0] in w.k.alloc.free;
    case Receive => Safety.ReceiveBlocks(w.k, w.h.place);
    case _ =>
  }

  lemma {:induction false} PlacesKept(w: World, steps: seq<Step>)
    requires Inv(w) && Legal(w, steps)
    ensures Run(w, steps).h.place.Keys == w.h.place.Keys
    decreases |steps|
  {
    hide Inv, Do, Enabled;
    if steps != [] {
      CoreHolds(w);
      PlacesStay(w, steps[0]);
      InvStep(w, steps[0]);
      PlacesKept(Do(w, steps[0]), steps[1..]);
    }
  }

  lemma SameMembers(q: seq<Addr>, q': seq<Addr>)
    requires NoDup(q) && NoDup(q') && forall p :: p in q <==> p in q'
    ensures multiset(q) == multiset(q')
  {
    NoDupMultiset(q);
    NoDupMultiset(q');
    forall p ensures multiset(q)[p] == multiset(q')[p] {
      assert p in multiset(q) <==> p in q;
      assert p in multiset(q') <==> p in q';
    }
  }

  lemma BothLists(k: Kernel, place: map<Addr, Place>)
    requires BlocksOk(k, place)
    ensures NoDup(k.alloc.free + k.alloc.used)
    ensures forall p :: p in k.alloc.free + k.alloc.used <==> p in place
  {
    NoDupConcat(k.alloc.free, k.alloc.used);
  }

  // After any legal run from boot the free and the used list together are a permutation
  // of the blocks that init_memory made, and these are the blocks that Conservation
  // partitions.
  lemma BlocksOfBoot(table: seq<Pib>, base: Addr, cap: nat, steps: seq<Step>)
    requires GoodTable(table) && base > 0 && Legal(BootWorld(table, base, cap), steps)
    ensures var w := Run(BootWorld(table, base, cap), steps);
      && multiset(w.k.alloc.free + w.k.alloc.used) == multiset(Blocks(base, cap))
      && w.h.place.Keys == Elems(Blocks(base, cap)) && |Blocks(base, cap)| == cap
  {
    hide Inv, BootWorld, Run, Legal, BlocksOk, Blocks;
    BootInv(table, base, cap);
    BootBlocks(table, base, cap);
    PlacesKept(BootWorld(table, base, cap), steps);
    Always(table, base, cap, steps);
    var w := Run(BootWorld(table, base, cap), steps);
    CoreHolds(w);
    BothLists(w.k, w.h.place);
    FreshBlocks(base, cap);
    SameMembers(w.k.alloc.free + w.k.alloc.used, Blocks(base, cap));
  }

  // ---------- counting the places ----------

  function Holdings(place: map<Addr, Place>): set<Addr> {
    set p | p in place && place[p].Held?
  }

  lemma Count(k: Kernel, place: map<Addr, Place>)
    requires BlocksOk(k, place)
    ensures |k.alloc.free| + |Holdings(place)| + |k.mailbox| + |k.delayed| == k.cap
  {
    hide OwnersOk, Lists, Placed, Holdings;
    ListSize(FreeBlocks, k.alloc.free, place);
    ListSize(Mailbox, k.mailbox, place);
    ListSize(DelayedMailbox, k.delayed, place);
    Cover(place);
    UnionSize(Placed(FreeBlocks, place), Holdings(place), Placed(Mailbox, place), Placed(DelayedMailbox, place));
  }

  lemma Cover(place: map<Addr, Place>)
    ensures var f, h := Placed(FreeBlocks, place), Holdings(place);
      var m, d := Placed(Mailbox, place), Placed(DelayedMailbox, place);
      f !! h && (f + h) !! m && (f + h + m) !! d && |place| == |f + h + m + d|
  {
    var f, h, m, d := Placed(FreeBlocks, place), Holdings(place), Placed(Mailbox, place), Placed(DelayedMailbox, place);
    assert place.Keys == f + h + m + d;
  }

  function Placed(listing: Listing, place: map<Addr, Place>): set<Addr> {
    set p | p in place && Listed(listing, place[p])
  }

  lemma ListSize(listing: Listing, q: seq<Addr>, place: map<Addr, Place>)
    requires Lists(listing, q, place)
    ensures |q| == |Placed(listing, place)|
  {
    ElemsSize(q);
    assert Elems(q) == Placed(listing, place);
  }

  lemma UnionSize(a: set<Addr>, b: set<Addr>, c: set<Addr>, d: set<Addr>)
    requires a !! b && (a + b) !! c && (a + b + c) !! d
    ensures |a + b + c + d| == |a| + |b| + |c| + |d|
  {
  }

  // A release by a process that holds the block succeeds; the block becomes the last
  // free one and belongs to nobody, and a second release of
  // the same block is refused.
  lemma ReleaseTwice(w: World, ptr: Addr)
    requires Inv(w) && HeldBy(w, ptr, w.k.Current())
    ensures GiveCode(w.k.alloc, ptr, w.k.Current()) == 0
    ensures var a := Give(w.k.alloc, ptr, w.k.Current()); a.free == w.k.alloc.free + [ptr] && a.Owner(ptr) == NO_OWNER
    ensures forall pid :: GiveCode(Give(w.k.alloc, ptr, w.k.Current()), ptr, pid) in {1, 3}
  {
    hide Steady, PcOk, NoLost, FreeIsZero, Waited, NoLostMail, Fifo, InDueOrder, Rx;
    var a := Give(w.k.alloc, ptr, w.k.Current());
    assert a.free[|a.free| - 1] == ptr;
  }

  // What the release codes mean: 0 for a used block of the caller, 1 when no block
  // is used, 2 for a pointer that is no block, 3 for a free or a foreign block; a refused
  // release changes nothing.
  lemma ReleaseCodes(w: World, ptr: Addr, pid: Pid)
    requires Inv(w)
    ensures var code, place, owner := GiveCode(w.k.alloc, ptr, pid), w.h.place, w.k.alloc.owner;
      && (code == 0 <==> ptr in place && place[ptr] != Free && owner[ptr] == pid)
      && (code == 1 <==> forall p | p in place :: place[p] == Free)
      && (code == 2 <==> ptr !in place && exists p :: p in place && place[p] != Free)
      && code in {0, 1, 2, 3}
    ensures GiveCode(w.k.alloc, ptr, w.k.Current()) != 0 ==> KernelSpec.Release(w.k, ptr).0 == w.k
  {
    hide Steady, PcOk, NoLost, FreeIsZero, Waited, NoLostMail, Fifo, InDueOrder, Rx;
    var used := w.k.alloc.used;
    if used != [] {
      assert used[0] in used;
    } else {
      forall p | p in w.h.place ensures w.h.place[p] == Free {
        assert p !in used;
      }
    }
  }

  // ---------- priorities over runs ----------

  // No step of the run changes the priority of pid successfully.
  ghost predicate KeepsPriority(w: World, steps: seq<Step>, pid: Pid)
    requires Legal(w, steps)
    decreases |steps|
  {
    steps == [] ||
    (&& (steps[0].Reprioritize? && steps[0].target == pid ==>
           SetPriority(w.k.sched, steps[0].target, steps[0].priority).1 != 0)
     && KeepsPriority(Do(w, steps[0]), steps[1..], pid))
  }

  // Nobody new, and the level of everybody but p is unchanged.
  ghost predicate KeepsLevels(s: Sched, t: Sched, p: int) {
    t.procs.Keys <= s.procs.Keys && forall x | x in t.procs && x != p :: t.procs[x].priority == s.procs[x].priority
  }

  lemma OwnSteps(w: World, step: Step)
    requires Core(w) && Enabled(w, step) && (step.Request? || step.Receive? || step.Yield? || step.Exit?)
    ensures KeepsLevels(w.k.sched, Effect(w, step).k.sched, -1)
  {
    hide BlocksOk, PcOk, Queued, NoneBefore, BlockRunning, Switch;
    var s := w.k.sched;
    match step
    case Request => BlockSteady(s, MemQ);
    case Receive => BlockSteady(s, MsgQ);
    case Yield => YieldSteady(s);
    case _ => TerminateSteady(s);
  }

  lemma ReleaseLevels(s: Sched)
    requires Steady(s)
    ensures KeepsLevels(s, UnblockType(s, MemQ), -1)
  {
    hide Queued, NoneBefore, UnblockType;
    UnblockTypeSteady(s, MemQ);
  }

  lemma SendLevels(s: Sched, pid: Pid)
    requires Steady(s)
    ensures KeepsLevels(s, UnblockPid(s, pid, true), -1)
  {
    hide Queued, NoneBefore, UnblockPid;
    WakeShape(s, pid);
    UnblockPidSteady(s, pid);
  }

  lemma TickLevels(s: Sched, pids: seq<Pid>)
    requires Steady(s)
    ensures KeepsLevels(s, WakeMany(s, pids), -1)
  {
    hide Queued, NoneBefore, WakeMany;
    WakeAllShape(s, pids);
    WakeManySteady(s, pids);
  }

  lemma LevelStep(w: World, step: Step)
    requires Core(w) && Enabled(w, step)
    ensures var p := if step.Reprioritize? && SetPriority(w.k.sched, step.target, step.priority).1 == 0
                     then step.target else -1;
      KeepsLevels(w.k.sched, Do(w, step).k.sched, p)
  {
    hide BlocksOk, PcOk, Queued, NoneBefore, SetPriority, UnblockType, UnblockPid, WakeMany;
    match step
    case Reprioritize(to, priority) => SetPrioritySteady(w.k.sched, to, priority);
    case Release(ptr) => ReleaseLevels(w.k.sched);
    case Send(pid, ptr) => SendLevels(w.k.sched, pid);
    case Tick => TickLevels(w.k.sched, Receivers(w.k, SweptAt(w.k).moved));
    case DelayedSend(_, _, _) =>
    case Write(_, _) =>
    case _ => OwnSteps(w, step);
  }

  // Through any blocking, waking, switching and refused calls, a live process keeps
  // the priority that was last set for it.
  lemma {:induction false} PriorityReported(w: World, steps: seq<Step>, pid: Pid)
    requires Inv(w) && Legal(w, steps) && KeepsPriority(w, steps, pid)
    requires pid in w.k.sched.procs && pid in Run(w, steps).k.sched.procs && pid != MAIN_PID
    ensures GetPriority(Run(w, steps).k.sched, pid) == GetPriority(w.k.sched, pid)
    decreases |steps|
  {
    hide Inv, Do, Enabled, GetPriority;
    if steps != [] {
      var v := Do(w, steps[0]);
      InvStep(w, steps[0]);
      StillThere(v, steps[1..], pid);
      PriorityAfter(w, steps[0], pid);
      PriorityReported(v, steps[1..], pid);
    }
  }

  lemma CoreHolds(w: World)
    requires Inv(w)
    ensures Core(w)
  {
  }

  lemma PriorityAfter(w: World, step: Step, pid: Pid)
    requires Inv(w) && Enabled(w, step) && pid in w.k.sched.procs && pid in Do(w, step).k.sched.procs && pid != MAIN_PID
    requires step.Reprioritize? && step.target == pid ==> SetPriority(w.k.sched, step.target, step.priority).1 != 0
    ensures GetPriority(Do(w, step).k.sched, pid) == GetPriority(w.k.sched, pid)
  {
    hide Steady, BlocksOk, PcOk, NoLost, FreeIsZero, Waited, NoLostMail, Fifo, InDueOrder, Do, Enabled, SetPriority;
    LevelStep(w, step);
  }

  // Processes are never created after boot.
  lemma {:induction false} StillThere(w: World, steps: seq<Step>, pid: Pid)
    requires Inv(w) && Legal(w, steps) && pid in Run(w, steps).k.sched.procs
    ensures pid in w.k.sched.procs
    decreases |steps|
  {
    hide Inv, Do, Enabled;
    if steps != [] {
      InvStep(w, steps[0]);
      StillThere(Do(w, steps[0]), steps[1..], pid);
      CoreHolds(w);
      LevelStep(w, steps[0]);
    }
  }
}
