// When a tick passes over a due message, and how a client can rule that out.
module PassedOver {
  import opened Rtx
  import opened Seqs
  import opened Envelope
  import opened SchedSpec
  import opened SchedLaws
  import opened AllocSpec
  import opened SweepSpec
  import opened KernelSpec
  import opened Boot
  import opened Runs
  import opened Delivery
  import opened DelayedOrder
  import opened MemoryWaits
  import opened WaitOrder
  import opened Reachable

  // ---------- the exact condition ----------

  function DueNext(k: Kernel): Addr -> bool {
    k.Due((k.ticks + 1) % WORD)
  }

  ghost predicate AllPostponed(w: World) {
    forall p | p in w.h.place :: w.h.place[p].Postponed?
  }

  // The delayed mailbox is full exactly when every block of the kernel is in it.
  lemma FullIff(w: World)
    requires Inv(w)
    ensures |w.k.delayed| == w.k.cap <==> AllPostponed(w)
  {
    hide Steady, PcOk, NoLost, FreeIsZero, Waited, NoLostMail, Fifo, InDueOrder, Rx;
    var k, place := w.k, w.h.place;
    Count(k, place);
    if |k.delayed| == k.cap {
      forall p | p in place ensures place[p].Postponed? {
        assert k.alloc.free == [] && k.mailbox == [];
        assert p !in Holdings(place);
      }
    }
    ListSize(DelayedMailbox, k.delayed, place);
    if AllPostponed(w) {
      assert Placed(DelayedMailbox, place) == place.Keys && |place| == |place.Keys|;
    }
  }

  // A tick passes over a due message if and only if every block is in the delayed
  // mailbox and the message behind the first due one is due as well.
  lemma PassesOverIff(w: World)
    requires Inv(w)
    ensures Skips(w.k.delayed, DueNext(w.k), w.k.cap) <==>
      var d := FirstIndex(w.k.delayed, DueNext(w.k));
      AllPostponed(w) && d + 1 < |w.k.delayed| && DueNext(w.k)(w.k.delayed[d + 1])
  {
    hide Inv, Rx, SendTime, FirstIndex, AllPostponed;
    FullIff(w);
    Fits(w);
  }

  lemma Fits(w: World)
    requires Inv(w)
    ensures |w.k.delayed| <= w.k.cap
  {
    Room(w.k, w.h.place);
  }

  // One block that is free, held or in the mailbox is enough for an exact tick.
  lemma OneBlockIsEnough(w: World, p: Addr)
    requires Inv(w) && p in w.h.place && !w.h.place[p].Postponed?
    ensures !Skips(w.k.delayed, DueNext(w.k), w.k.cap)
    ensures var swept := Swept(Filter(w.k.delayed, DueNext(w.k)), Filter(w.k.delayed, Not(DueNext(w.k))));
      && Do(w, Tick).k.mailbox == w.k.mailbox + swept.moved && Do(w, Tick).k.delayed == swept.kept
  {
    hide Inv, Rx, SendTime, FirstIndex, WakeMany, Filter, Skips, Sweep;
    PassesOverIff(w);
    SweepExact(w.k.delayed, DueNext(w.k), w.k.cap);
    TickIsLegal(w);
  }

  lemma TickIsLegal(w: World)
    requires Inv(w)
    ensures Enabled(w, Tick)
  {
    NeverStuck(w);
  }

  // ---------- runs a client can keep exact ----------

  // At every tick of the run some block is elsewhere, and no time wraps.
  ghost predicate Roomy(w: World, steps: seq<Step>)
    requires Legal(w, steps)
    decreases |steps|
  {
    steps == [] ||
    (&& (steps[0].Tick? ==> !AllPostponed(w) && w.k.ticks + 1 < WORD)
     && (steps[0].DelayedSend? ==> steps[0].delay + w.k.ticks < WORD)
     && Roomy(Do(w, steps[0]), steps[1..]))
  }

  lemma {:induction false} RoomyIsPunctual(w: World, steps: seq<Step>)
    requires Inv(w) && Legal(w, steps) && Roomy(w, steps) && w.h.punctual
    ensures Run(w, steps).h.punctual
    decreases |steps|
  {
    hide Inv, Do, Enabled, AllPostponed;
    if steps != [] {
      InvStep(w, steps[0]);
      StaysPunctual(w, steps[0]);
      RoomyIsPunctual(Do(w, steps[0]), steps[1..]);
    }
  }

  lemma StaysPunctual(w: World, step: Step)
    requires Inv(w) && Enabled(w, step) && w.h.punctual
    requires step.Tick? ==> !AllPostponed(w) && w.k.ticks + 1 < WORD
    requires step.DelayedSend? ==> step.delay + w.k.ticks < WORD
    ensures Do(w, step).h.punctual
  {
    hide Inv, SetPriority, UnblockType, UnblockPid, BlockRunning, Switch, WakeMany, Stamped, Addressed,
      Skips, Sweep, SendTime;
    if step.Tick? {
      PassesOverIff(w);
    }
  }

  // In a roomy run from boot the delayed messages reach the mailbox in the stable sort
  // of their calls by due tick, and nothing that is due still waits.
  lemma RoomyRunsAreSorted(table: seq<Pib>, base: Addr, cap: nat, steps: seq<Step>)
    requires GoodTable(table) && base > 0 && Legal(BootWorld(table, base, cap), steps)
    requires Roomy(BootWorld(table, base, cap), steps)
    ensures var h, now := Run(BootWorld(table, base, cap), steps).h, Run(BootWorld(table, base, cap), steps).k.ticks;
      exists b: seq<Issue> ::
        && h.matured == MsgsOf(b)
        && (forall i, j | 0 <= i < j < |b| :: Key(b[i]) <= Key(b[j]))
        && (forall c | 0 < c <= now :: Filter(b, At(c)) == Filter(h.issued, At(c)))
        && (forall x | x in b :: 0 < Key(x) <= now)
    ensures var v := Run(BootWorld(table, base, cap), steps);
      Msgs(v.k.alloc, v.k.delayed) == MsgsOf(Filter(v.h.issued, Later(v.k.ticks)))
  {
    hide Inv, BootWorld, Run, Legal, Roomy, Key, Filter;
    BootInv(table, base, cap);
    assert BootWorld(table, base, cap).h.punctual by { BootPunctual(table, base, cap); }
    RoomyIsPunctual(BootWorld(table, base, cap), steps);
    RunInv(BootWorld(table, base, cap), steps);
    OrderHolds(Run(BootWorld(table, base, cap), steps));
    MovedInDueOrder(Run(BootWorld(table, base, cap), steps));
  }

  lemma BootPunctual(table: seq<Pib>, base: Addr, cap: nat)
    ensures BootWorld(table, base, cap).h.punctual
  {
    hide Started;
  }

  lemma OrderHolds(w: World)
    requires Inv(w)
    ensures InDueOrder(w)
    ensures w.h.punctual ==> Msgs(w.k.alloc, w.k.delayed) == MsgsOf(Filter(w.h.issued, Later(w.k.ticks)))
  {
  }

  // ---------- a run in which a due message is passed over ----------

  // The running process holds both blocks of a kernel that has two, and sends both to
  // be delivered at the next tick.
  lemma OneStaysBehind(w: World, pid: Pid, a: Addr, b: Addr)
    requires Inv(w) && w.k.cap == 2 && w.k.ticks + 1 < WORD
    requires w.k.Current() != NULL_PID && w.k.Current() in w.h.pc && w.h.pc[w.k.Current()] == Own
    requires HeldBy(w, a, w.k.Current()) && HeldBy(w, b, w.k.Current()) && a != b && Found(w.k.sched, pid)
    ensures var steps := [Step.DelayedSend(pid, a, 1), Step.DelayedSend(pid, b, 1), Tick];
      && Legal(w, steps)
      && var v := Run(w, steps);
         v.k.delayed == [b] && v.k.mailbox == [a] && SendTime(v.k.alloc.Mem(b)) == v.k.ticks == w.k.ticks + 1
  {
    hide Inv, Do, Enabled, SendTime;
    var s1, s2 := Step.DelayedSend(pid, a, 1), Step.DelayedSend(pid, b, 1);
    BothHeld(w, a, b);
    Postpones(w, pid, a, b);
    var w1 := Do(w, s1);
    InvStep(w, s1);
    Postpones(w1, pid, b, a);
    var w2 := Do(w1, s2);
    InvStep(w1, s2);
    NeverStuck(w2);
    OneMoves(w2, a, b);
    LegalThree(w, s1, s2, Tick);
  }

  lemma LegalFirst(w: World, step: Step, rest: seq<Step>)
    requires Enabled(w, step) && Legal(Do(w, step), rest)
    ensures Legal(w, [step] + rest) && Run(w, [step] + rest) == Run(Do(w, step), rest)
  {
    hide Do, Enabled;
    assert ([step] + rest)[1..] == rest;
  }

  lemma LegalThree(w: World, s1: Step, s2: Step, s3: Step)
    requires Enabled(w, s1) && Enabled(Do(w, s1), s2) && Enabled(Do(Do(w, s1), s2), s3)
    ensures Legal(w, [s1, s2, s3]) && Run(w, [s1, s2, s3]) == Do(Do(Do(w, s1), s2), s3)
  {
    hide Do, Enabled;
    LegalFirst(Do(Do(w, s1), s2), s3, []);
    assert [s3] + [] == [s3];
    LegalFirst(Do(w, s1), s2, [s3]);
    assert [s2] + [s3] == [s2, s3];
    LegalFirst(w, s1, [s2, s3]);
    assert [s1] + [s2, s3] == [s1, s2, s3];
  }

  lemma BothHeld(w: World, a: Addr, b: Addr)
    requires Inv(w) && w.k.cap == 2 && a != b && a in w.h.place && b in w.h.place
    requires w.h.place[a].Held? && w.h.place[b].Held?
    ensures w.k.mailbox == [] && w.k.delayed == []
  {
    hide Steady, PcOk, NoLost, FreeIsZero, Waited, NoLostMail, Fifo, InDueOrder, Rx;
    Count(w.k, w.h.place);
    assert {a, b} <= Holdings(w.h.place);
    SubsetBound({a, b}, Holdings(w.h.place));
  }

  lemma SubsetBound(a: set<Addr>, b: set<Addr>)
    requires a <= b
    ensures |a| <= |b|
  {
    assert b == a + (b - a);
  }

  // A delayed send of a held block, and what it leaves alone.
  lemma Postpones(w: World, pid: Pid, a: Addr, b: Addr)
    requires Inv(w) && |w.k.delayed| < w.k.cap && w.k.ticks + 1 < WORD
    requires w.k.Current() != NULL_PID && w.k.Current() in w.h.pc && w.h.pc[w.k.Current()] == Own
    requires HeldBy(w, a, w.k.Current()) && a != b && Found(w.k.sched, pid)
    ensures Enabled(w, Step.DelayedSend(pid, a, 1))
    ensures var v := Do(w, Step.DelayedSend(pid, a, 1));
      && v.k.delayed == w.k.delayed + [a] && v.k.mailbox == w.k.mailbox && v.k.sched == w.k.sched
      && v.k.ticks == w.k.ticks && v.k.cap == w.k.cap && v.h.pc == w.h.pc
      && SendTime(v.k.alloc.Mem(a)) == w.k.ticks + 1 && v.k.alloc.Mem(b) == w.k.alloc.Mem(b)
      && (HeldBy(w, b, w.k.Current()) ==> HeldBy(v, b, v.k.Current()))
  {
    hide Inv, SendTime, Stamped, Joined, Enabled, Found;
    MaySend(w, pid, a);
    PostponedMessage(w.k, pid, a, 1);
  }

  lemma MaySend(w: World, pid: Pid, a: Addr)
    requires Inv(w) && w.k.Current() != NULL_PID && w.k.Current() in w.h.pc && w.h.pc[w.k.Current()] == Own
    requires HeldBy(w, a, w.k.Current()) && Found(w.k.sched, pid)
    ensures Enabled(w, Step.DelayedSend(pid, a, 1)) && SendCode(w.k, pid, a) == 0
    ensures pid < WORD && w.k.Current() < WORD && a in w.k.alloc.mem
  {
    hide NoLost, FreeIsZero, Waited, NoLostMail, Fifo, InDueOrder, Queued, NoneBefore, Rx;
  }

  lemma OneMoves(w: World, a: Addr, b: Addr)
    requires Enabled(w, Tick) && w.k.delayed == [a, b] && w.k.mailbox == [] && w.k.cap == 2 && w.k.ticks + 1 < WORD
    requires SendTime(w.k.alloc.Mem(a)) == w.k.ticks + 1 && SendTime(w.k.alloc.Mem(b)) == w.k.ticks + 1
    ensures var k := Do(w, Tick).k;
      k.delayed == [b] && k.mailbox == [a] && k.alloc == w.k.alloc && k.ticks == w.k.ticks + 1
  {
    hide SendTime, WakeMany, Sweep, Skips, Joined;
    var due := w.k.Due(w.k.ticks + 1);
    SweepTwo(a, b, due);
  }

  // Boot with two blocks and at least one process besides the null process: the first
  // process to run takes both blocks and sends them, delayed by one tick, to itself.
  lemma PassedOverFromBoot(table: seq<Pib>, base: Addr)
    requires GoodTable(table) && |table| >= 2 && base > 0
    ensures var w, b := BootWorld(table, base, 2), base + MEM_BLOCK_SIZE;
      var p := w.k.Current();
      var steps := [Step.Request, Step.Request, Step.DelayedSend(p, base, 1), Step.DelayedSend(p, b, 1), Tick];
      && Legal(w, steps)
      && var v := Run(w, steps);
         v.k.delayed == [b] && v.k.mailbox == [base] && SendTime(v.k.alloc.Mem(b)) == v.k.ticks == 1
  {
    hide Inv, Do, Enabled, SendTime, BootWorld;
    var w, b := BootWorld(table, base, 2), base + MEM_BLOCK_SIZE;
    var p := w.k.Current();
    BootInv(table, base, 2);
    BootRuns(table, base);
    Takes(w, base);
    var w1 := Do(w, Step.Request);
    InvStep(w, Step.Request);
    Takes(w1, b);
    var w2 := Do(w1, Step.Request);
    InvStep(w1, Step.Request);
    OneStaysBehind(w2, p, base, b);
    var rest := [Step.DelayedSend(p, base, 1), Step.DelayedSend(p, b, 1), Tick];
    LegalFirst(w1, Step.Request, rest);
    LegalFirst(w, Step.Request, [Step.Request] + rest);
    assert [Step.Request] + ([Step.Request] + rest)
        == [Step.Request, Step.Request, Step.DelayedSend(p, base, 1), Step.DelayedSend(p, b, 1), Tick];
  }

  // The booted kernel with two blocks.
  lemma BootRuns(table: seq<Pib>, base: Addr)
    requires GoodTable(table) && |table| >= 2 && base > 0
    ensures var w := BootWorld(table, base, 2); var p := w.k.Current();
      && w.k.cap == 2 && w.k.ticks == 0 && w.k.alloc.free == [base, base + MEM_BLOCK_SIZE]
      && p != NULL_PID && p in w.h.pc && w.h.pc[p] == Own && Found(w.k.sched, p)
  {
    hide Started, Admitted, Queued, NoneBefore;
    StartedSteady(table);
    AdmittedShape(table, |table|);
    assert table[..|table|] == table;
    assert Blocks(base, 2) == [base, base + MEM_BLOCK_SIZE];
    SomebodyRuns(Started(table), table[1].pid);
  }

  lemma SomebodyRuns(s: Sched, p: Pid)
    requires Steady(s) && p in s.procs && p != NULL_PID && p != MAIN_PID && s.procs[p].priority < NULL_PRIORITY
    requires !IsBlocked(s.procs[p].state)
    ensures s.running != Some(NULL_PID)
  {
    NullIsIdle(s);
    assert s.running == Some(p) || AtHome(s, p);
  }

  // A request that finds a free block.
  lemma Takes(w: World, a: Addr)
    requires Inv(w) && w.k.alloc.free != [] && w.k.alloc.free[0] == a
    requires w.k.Current() != NULL_PID && w.k.Current() in w.h.pc && w.h.pc[w.k.Current()] == Own
    ensures Enabled(w, Step.Request)
    ensures var v := Do(w, Step.Request);
      && v.k.alloc.free == w.k.alloc.free[1..] && v.k.sched == w.k.sched && v.k.cap == w.k.cap && v.k.ticks == w.k.ticks
      && v.h.pc == w.h.pc && v.h.place == w.h.place[a := Held(w.k.Current())]
  {
    hide NoLost, FreeIsZero, Waited, NoLostMail, Fifo, InDueOrder, Queued, NoneBefore;
    assert w.h.pc[w.k.Current() := Own] == w.h.pc;
  }
}
