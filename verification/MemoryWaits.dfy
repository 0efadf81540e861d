// Processes waiting for memory: no wake-up is lost, and blocks come back zeroed.
module MemoryWaits {
  import opened Rtx
  import opened Seqs
  import opened Envelope
  import opened SchedSpec
  import opened AllocSpec
  import opened KernelSpec
  import opened Runs

  // The processes asleep inside request_memory_block.
  function Sleepers(s: Sched): set<Pid> {
    set p | p in s.procs && s.procs[p].state == BlockedMem
  }

  // The processes woken inside request_memory_block that have not retried yet.
  function Woken(s: Sched, pc: map<Pid, Pc>): set<Pid> {
    set p | p in s.procs && p in pc && pc[p] == InRequest && s.procs[p].state != BlockedMem
  }

  // While somebody sleeps, every free block is matched by a process that will retry.
  ghost predicate NoLostMemory(s: Sched, pc: map<Pid, Pc>, free: seq<Addr>) {
    Sleepers(s) != {} ==> |free| <= |Woken(s, pc)|
  }

  ghost predicate NoLost(w: World) {
    NoLostMemory(w.k.sched, w.h.pc, w.k.alloc.free)
  }

  lemma MatchedAfter(w: World, v: World)
    requires NoLost(w)
    requires Sleepers(v.k.sched) == Sleepers(w.k.sched)
    requires Woken(v.k.sched, v.h.pc) == Woken(w.k.sched, w.h.pc)
    requires |v.k.alloc.free| <= |w.k.alloc.free|
    ensures NoLost(v)
  {
  }

  lemma SameSleep(s: Sched, s': Sched, pc: map<Pid, Pc>)
    requires SameWaits(s, s')
    ensures Sleepers(s') == Sleepers(s) && Woken(s', pc) == Woken(s, pc)
  {
    assert forall p | p in s.procs :: s'.procs[p].state == BlockedMem <==> s.procs[p].state == BlockedMem;
  }

  // Waking one sleeper, or nobody.
  lemma WakeOne(s: Sched, s': Sched, pid: Pid, pc: map<Pid, Pc>)
    requires PcOk(s, pc) && pid in s.procs && pid != MAIN_PID && IsBlocked(s.procs[pid].state)
    requires SameWaits(SetState(s, pid, Ready), s')
    ensures Sleepers(s') == Sleepers(s) - {pid}
    ensures Woken(s', pc) == Woken(s, pc) + (if s.procs[pid].state == BlockedMem then {pid} else {})
  {
    SameSleep(SetState(s, pid, Ready), s', pc);
  }

  lemma RequestMemory(w: World)
    requires Core(w) && Enabled(w, Request) && NoLost(w)
    ensures NoLost(DoRequest(w))
  {
    hide BlocksOk, Queued, BlockRunning;
    var v, pid := DoRequest(w), w.k.Current();
    if w.k.alloc.free != [] {
      assert Woken(v.k.sched, v.h.pc) == Woken(w.k.sched, w.h.pc) - {pid};
    }
  }

  lemma BlockForMessage(s: Sched, pc: map<Pid, Pc>)
    requires Steady(s) && s.running.value != NULL_PID && s.running.value in pc && pc[s.running.value] != InRequest
    ensures var t, pc' := BlockRunning(s, MsgQ), pc[s.running.value := InReceive];
      Sleepers(t) == Sleepers(s) && Woken(t, pc') == Woken(s, pc)
  {
    hide Queued, NoneBefore, Switch;
    var r := s.running.value;
    BlockSteady(s, MsgQ);
    SameSleep(SetState(s, r, BlockedMsg), BlockRunning(s, MsgQ), pc[r := InReceive]);
  }

  lemma StayAwake(s: Sched, pc: map<Pid, Pc>, pid: Pid)
    requires pid in pc && pc[pid] != InRequest
    ensures Woken(s, pc[pid := Own]) == Woken(s, pc)
  {
  }

  lemma ReceiveMemory(w: World)
    requires Core(w) && Enabled(w, Receive) && NoLost(w)
    ensures NoLost(DoReceive(w))
  {
    hide BlocksOk, Queued, BlockRunning;
    var pid := w.k.Current();
    if FirstIndex(w.k.mailbox, w.k.For(pid)) == |w.k.mailbox| {
      BlockForMessage(w.k.sched, w.h.pc);
    } else {
      StayAwake(w.k.sched, w.h.pc, pid);
    }
    MatchedAfter(w, DoReceive(w));
  }

  // With all memory queues empty nobody sleeps.
  lemma NoSleepers(s: Sched)
    requires Steady(s) && First(s, MemQ) == LEVELS
    ensures Sleepers(s) == {}
  {
    forall p | p in s.procs
      ensures p !in Sleepers(s)
    {
      if p !in Outside(s) {
        assert AtHome(s, p);
      }
    }
  }

  lemma FirstSleeper(s: Sched, pc: map<Pid, Pc>)
    requires Steady(s) && PcOk(s, pc) && First(s, MemQ) < LEVELS
    ensures var p := Pop(s, MemQ).1;
      && p in Sleepers(s) && p !in Woken(s, pc) && p != MAIN_PID
      && Woken(UnblockType(s, MemQ), pc) == Woken(s, pc) + {p}
      && Sleepers(UnblockType(s, MemQ)) == Sleepers(s) - {p}
  {
    hide Queued, NoneBefore, UnblockType;
    UnblockTypeSteady(s, MemQ);
    var p := Pop(s, MemQ).1;
    WakeOne(s, UnblockType(s, MemQ), p, pc);
  }

  lemma OneMoreWoken(s: Sched, pc: map<Pid, Pc>)
    requires Steady(s) && PcOk(s, pc)
    ensures Sleepers(UnblockType(s, MemQ)) == {} || |Woken(UnblockType(s, MemQ), pc)| == |Woken(s, pc)| + 1
    ensures Sleepers(UnblockType(s, MemQ)) <= Sleepers(s)
  {
    if First(s, MemQ) < LEVELS {
      FirstSleeper(s, pc);
    } else {
      NoSleepers(s);
    }
  }

  lemma ReleaseMemory(w: World, ptr: Addr)
    requires Steady(w.k.sched) && PcOk(w.k.sched, w.h.pc) && NoLost(w)
    ensures NoLost(DoRelease(w, ptr))
  {
    hide Steady, UnblockType;
    if GiveCode(w.k.alloc, ptr, w.k.Current()) == 0 {
      OneMoreWoken(w.k.sched, w.h.pc);
    }
  }

  lemma SendMemory(w: World, pid: Pid, ptr: Addr)
    requires Core(w) && Enabled(w, Send(pid, ptr)) && NoLost(w)
    ensures NoLost(DoSend(w, pid, ptr))
  {
    hide Queued, BlocksOk, Switch;
    var v, s := DoSend(w, pid, ptr), w.k.sched;
    if SendCode(w.k, pid, ptr) == 0 {
      WakeShape(s, pid);
      UnblockPidSteady(s, pid);
      if CanWake(s, pid) {
        WakeOne(s, v.k.sched, pid, w.h.pc);
      } else {
        SameSleep(s, v.k.sched, w.h.pc);
      }
    }
  }

  lemma TickMemory(s: Sched, pids: seq<Pid>, pc: map<Pid, Pc>)
    requires Steady(s)
    ensures Sleepers(WakeMany(s, pids)) <= Sleepers(s)
    ensures |Woken(s, pc)| <= |Woken(WakeMany(s, pids), pc)|
  {
    hide Queued, NoneBefore, WakeAll, WakeMany;
    WakeAllShape(s, pids);
    WakeManySteady(s, pids);
    SameSleep(WakeAll(s, pids), WakeMany(s, pids), pc);
    SubsetSize(Woken(s, pc), Woken(WakeMany(s, pids), pc));
  }

  lemma TickLost(w: World)
    requires Core(w) && NoLost(w)
    ensures NoLost(DoTick(w))
  {
    hide BlocksOk, PcOk, Queued, NoneBefore, Sleepers, Woken, WakeMany;
    var pids := Receivers(w.k, SweptAt(w.k).moved);
    TickMemory(w.k.sched, pids, w.h.pc);
    assert DoTick(w).k.sched == WakeMany(w.k.sched, pids);
  }

  lemma {:induction false} SubsetSize(a: set<Pid>, b: set<Pid>)
    requires a <= b
    ensures |a| <= |b|
  {
    if a != {} {
      var x :| x in a;
      SubsetSize(a - {x}, b - {x});
    }
  }

  lemma LevelSleep(s: Sched, t: Sched, pid: Pid, priority: nat, pc: map<Pid, Pc>)
    requires pid in s.procs && SameWaits(SetLevel(s, pid, priority), t)
    ensures Sleepers(t) == Sleepers(s) && Woken(t, pc) == Woken(s, pc)
  {
    SameSleep(SetLevel(s, pid, priority), t, pc);
  }

  lemma PriorityMemory(s: Sched, pid: int, priority: int, pc: map<Pid, Pc>)
    requires Steady(s)
    ensures var t := SetPriority(s, pid, priority).0; Sleepers(t) == Sleepers(s) && Woken(t, pc) == Woken(s, pc)
  {
    hide Steady, SetPriority, Sleepers, Woken;
    SetPrioritySteady(s, pid, priority);
    var (t, code) := SetPriority(s, pid, priority);
    if code == 0 {
      LevelSleep(s, t, pid, priority, pc);
    }
  }

  lemma ExitMemory(s: Sched, pc: map<Pid, Pc>)
    requires Steady(s) && s.running.value != NULL_PID && s.running.value in pc && pc[s.running.value] == Own
    ensures Sleepers(Terminate(s)) == Sleepers(s) && Woken(Terminate(s), pc) == Woken(s, pc)
  {
    hide Queued, NoneBefore, Terminate;
    TerminateSteady(s);
    var t := s.(procs := s.procs - {s.running.value});
    assert Sleepers(t) == Sleepers(s) && Woken(t, pc) == Woken(s, pc);
    SameSleep(t, Terminate(s), pc);
  }

  lemma SchedMemory(w: World, step: Step)
    requires Core(w) && Enabled(w, step) && NoLost(w) && (step.Reprioritize? || step.Yield? || step.Exit?)
    ensures NoLost(Effect(w, step))
  {
    hide Queued, NoneBefore, BlocksOk, PcOk, Sleepers, Woken;
    var s, pc := w.k.sched, w.h.pc;
    match step
    case Reprioritize(pid, priority) => PriorityMemory(s, pid, priority, pc);
    case Yield => YieldSteady(s); SameSleep(s, Switch(s), pc);
    case Exit => ExitMemory(s, pc);
  }

  // Barging requests, wake-ups by messages, ticks and re-blocking included.
  lemma NoLostMemoryStep(w: World, step: Step)
    requires Core(w) && Enabled(w, step) && NoLost(w)
    ensures NoLost(Do(w, step))
  {
    hide Steady, BlocksOk, NoLostMemory, PcOk;
    match step
    case Request => RequestMemory(w);
    case Receive => ReceiveMemory(w);
    case Release(ptr) => ReleaseMemory(w, ptr);
    case Send(pid, ptr) => SendMemory(w, pid, ptr);
    case DelayedSend(pid, ptr, delay) =>
    case Write(ptr, block) =>
    case Tick => TickLost(w);
    case _ => SchedMemory(w, step);
  }

  // What the invariant means for a sleeper: with a block free, some process that
  // is not asleep is on its way to take it.
  lemma SleeperIsServed(w: World, p: Pid)
    requires NoLost(w) && p in Sleepers(w.k.sched) && w.k.alloc.free != []
    ensures exists r ::
      && r in w.k.sched.procs && r in w.h.pc
      && w.h.pc[r] == InRequest && w.k.sched.procs[r].state != BlockedMem
  {
    assert Woken(w.k.sched, w.h.pc) != {};
    var r :| r in Woken(w.k.sched, w.h.pc);
  }

  // ---------- zeroed blocks ----------

  ghost predicate FreeIsZero(w: World) {
    forall ptr | ptr in w.k.alloc.free :: w.k.alloc.Mem(ptr) == Zeros(MEM_BLOCK_SIZE)
  }

  // Only the holder of a block writes to it, and a block is zeroed on release.
  lemma FreeIsZeroStep(w: World, step: Step)
    requires BlocksOk(w.k, w.h.place) && Enabled(w, step) && FreeIsZero(w)
    ensures FreeIsZero(Do(w, step))
  {
    hide BlocksOk, Enabled, Effect;
    ZeroEffect(w, step);
  }

  // The free blocks after a step were free before, or have just been zeroed.
  lemma ZeroEffect(w: World, step: Step)
    requires BlocksOk(w.k, w.h.place) && Enabled(w, step) && FreeIsZero(w)
    ensures FreeIsZero(Effect(w, step))
  {
    hide Rx, Stamped, Addressed, OwnersOk, WakeMany, BlockRunning, UnblockPid, UnblockType, SetPriority, Switch, Zeros;
    var a, a' := w.k.alloc, Effect(w, step).k.alloc;
    forall p | p in a'.free
      ensures a'.Mem(p) == Zeros(MEM_BLOCK_SIZE)
    {
      assert p in a.free || (step.Release? && p == step.ptr);
      assert p in a.free ==> a.Mem(p) == Zeros(MEM_BLOCK_SIZE);
    }
  }

  lemma RequestGivesZeros(w: World)
    requires FreeIsZero(w) && Enabled(w, Request)
    ensures var (k, got) := KernelSpec.Request(w.k);
      got.Some? ==> forall i | 0 <= i < MEM_BLOCK_SIZE :: k.alloc.Mem(got.value)[i] == 0
  {
    if w.k.alloc.free != [] {
      assert w.k.alloc.free[0] in w.k.alloc.free;
    }
  }
}
