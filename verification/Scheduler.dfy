// core.c: process control blocks linked into the fifteen queues, in place.
module SchedulerImpl {
  import opened Rtx
  import opened SchedSpec
  import opened Links
  import opened Boot

  class PCB {
    const pid: Pid
    var state: State
    var priority: nat
    var next: PCB?

    constructor (pid: Pid, state: State, priority: nat)
      ensures this.pid == pid && this.state == state && this.priority == priority && next == null
    {
      this.pid, this.state, this.priority, this.next := pid, state, priority, null;
    }
  }

  // The PCB a link stands for.
  ghost function Ptr(byPid: map<Pid, PCB>, link: Option<Pid>): PCB? {
    if link.Some? && link.value in byPid then byPid[link.value] else null
  }

  class Scheduler {
    const readyQueue: array<PCB?>
    const memBlockedQueue: array<PCB?>
    const msgBlockedQueue: array<PCB?>
    const mainProcess: PCB
    var running: PCB?

    // The abstract state, and the PCB of every live process.
    ghost var S: Sched
    ghost var byPid: map<Pid, PCB>
    ghost var nodes: set<PCB>

    function Heads(kind: Kind): array<PCB?> {
      match kind
      case ReadyQ => readyQueue
      case MemQ => memBlockedQueue
      case MsgQ => msgBlockedQueue
    }

    // Each live process has one PCB, which carries its state and priority.
    ghost predicate Table()
      reads this, nodes
    {
      && byPid.Keys == S.procs.Keys && (forall n | n in nodes :: Live(n))
      && (forall p | p in byPid :: byPid[p] in nodes && byPid[p].pid == p
                                   && S.procs[p] == Proc(byPid[p].state, byPid[p].priority))
      && mainProcess.pid == MAIN_PID && MAIN_PID in byPid && byPid[MAIN_PID] == mainProcess
      && running == Ptr(byPid, S.running) && (running == null <==> S.running == None)
    }

    ghost predicate Arrays()
      reads {}
    {
      readyQueue != memBlockedQueue && readyQueue != msgBlockedQueue && memBlockedQueue != msgBlockedQueue
    }

    ghost predicate Headed(queue: array<PCB?>, kind: Kind, s: Sched)
      reads `byPid, queue
    {
      queue.Length == LEVELS && forall l | 0 <= l < LEVELS :: queue[l] == Ptr(byPid, HeadOf(s, Slot(kind, l)))
    }

    // The heads and the next fields spell out the lists of s.
    ghost predicate Spells(s: Sched)
      reads `byPid, `nodes, readyQueue, memBlockedQueue, msgBlockedQueue, nodes`next
    {
      && Headed(readyQueue, ReadyQ, s) && Headed(memBlockedQueue, MemQ, s) && Headed(msgBlockedQueue, MsgQ, s)
      && (forall p | p in byPid && byPid[p] in nodes && Waiting(s, p) :: byPid[p].next == Ptr(byPid, NextIn(s, p)))
    }

    ghost predicate Linked()
      reads this, readyQueue, memBlockedQueue, msgBlockedQueue, nodes
    {
      Spells(S)
    }

    ghost predicate Valid()
      reads this, readyQueue, memBlockedQueue, msgBlockedQueue, nodes
    {
      Arrays() && Table() && Listed(S) && Linked()
    }

    ghost predicate Live(p: PCB)
      reads this
    {
      p.pid in byPid && byPid[p.pid] == p
    }

    constructor ()
      ensures Valid() && S == Admitted([])
      ensures fresh(readyQueue) && fresh(memBlockedQueue) && fresh(msgBlockedQueue) && fresh(nodes)
    {
      var ready := NewQueue();
      var mem := NewQueue();
      var msg := NewQueue();
      readyQueue, memBlockedQueue, msgBlockedQueue := ready, mem, msg;
      var main := new PCB(MAIN_PID, Ready, MAIN_PRIORITY);
      mainProcess := main;
      running := null;
      S := Admitted([]);
      byPid, nodes := map[MAIN_PID := main], {main};
      new;
      hide Listed, HeadOf, NextIn, Waiting, Admitted;
      NoLists();
    }

    // The head of a list, and what stands at position i of it.
    lemma HeadAt(kind: Kind, level: nat)
      requires Valid() && level < LEVELS
      ensures var q := S.Q(Slot(kind, level));
        && Heads(kind).Length == LEVELS && (forall p | p in q :: p in byPid)
        && Heads(kind)[level] == if q == [] then null else byPid[q[0]]
    {
      hide Listed, NextIn;
      forall i | 0 <= i < |S.Q(Slot(kind, level))| ensures S.Q(Slot(kind, level))[i] in byPid {
        AtIndex(S, Slot(kind, level), i);
      }
    }

    lemma ListAt(slot: Slot, i: nat)
      requires Valid() && i < |S.Q(slot)|
      ensures var q := S.Q(slot);
        && q[i] in byPid && Live(byPid[q[i]]) && byPid[q[i]].pid == q[i]
        && (i + 1 < |q| ==> q[i + 1] in byPid && byPid[q[i]].next == byPid[q[i + 1]])
        && (i + 1 == |q| ==> byPid[q[i]].next == null)
    {
      hide Listed, NextIn;
      AtIndex(S, slot, i);
      if i + 1 < |S.Q(slot)| {
        AtIndex(S, slot, i + 1);
      }
    }

    // The walk to the end of a non-empty list.
    method Last(kind: Kind, level: nat) returns (proc: PCB)
      requires Valid() && level < LEVELS && S.Q(Slot(kind, level)) != []
      ensures Live(proc) && IsLast(S.Q(Slot(kind, level)), proc.pid)
    {
      hide Valid;
      ghost var q := S.Q(Slot(kind, level));
      HeadAt(kind, level);
      ListAt(Slot(kind, level), 0);
      proc := Heads(kind)[level];
      ghost var i := 0;
      while proc.next != null
        invariant 0 <= i < |q| && q[i] in byPid && proc == byPid[q[i]] && Live(proc) && proc.pid == q[i]
        decreases |q| - i
      {
        ListAt(Slot(kind, level), i);
        proc := proc.next;
        i := i + 1;
        ListAt(Slot(kind, level), i);
      }
      ListAt(Slot(kind, level), i);
    }

    // The pointer writes of enqueue_process.
    method LinkLast(kind: Kind, process: PCB)
      requires Valid() && Live(process) && process.priority < LEVELS && !Waiting(S, process.pid)
      modifies Heads(kind), nodes`next
      ensures forall l | 0 <= l < LEVELS ::
        Heads(kind)[l] == if l == process.priority && S.Q(Slot(kind, l)) == [] then process else old(Heads(kind)[l])
      ensures process.next == null
      ensures forall p | p in byPid && p != process.pid ::
        byPid[p].next == if IsLast(S.Q(Slot(kind, process.priority)), p) then process else old(byPid[p].next)
    {
      hide Listed, NextIn, Waiting;
      HeadMeans(S, Slot(kind, process.priority));
      var queue := Heads(kind);
      if queue[process.priority] == null {
        queue[process.priority] := process;
      } else {
        var proc := Last(kind, process.priority);
        proc.next := process;
      }
      process.next := null;
    }

    // The pointers already spell out the lists of t.
    ghost method Relist(t: Sched)
      requires Arrays() && Table() && Listed(t) && Spells(t) && t.procs == S.procs && t.running == S.running
      modifies this`S
      ensures Valid() && S == t
    {
      hide Listed, NextIn, HeadOf, Waiting, Ptr;
      S := t;
    }

    method EnqueueProcess(kind: Kind, process: PCB)
      requires Valid() && Live(process) && process.priority < LEVELS && KindOf(process.state) == kind
      requires !Waiting(S, process.pid)
      modifies this`S, Heads(kind), nodes`next
      ensures Valid() && S == Enqueue(old(S), kind, process.pid)
    {
      hide Listed, NextIn, HeadOf, Waiting, Enqueue;
      EnqueueLinks(S, process.pid);
      HeadMeans(S, Slot(kind, process.priority));
      LinkLast(kind, process);
      Relist(Enqueue(S, kind, process.pid));
    }

    // remove_process
    method RemoveProcess(process: PCB)
      requires Valid() && Live(process) && process.priority < LEVELS
      modifies this`S, Heads(KindOf(process.state)), nodes`next
      ensures Valid() && S == Remove(old(S), process.pid)
    {
      hide Listed, NextIn, HeadOf, Waiting, Remove, Ptr;
      RunningMeans(process);
      if process == running {
        RemoveRunning(S, process.pid);
        return;
      }
      HeadMeans(S, Home(S, process.pid));
      Unlink(process);
      RemoveAny(S, process.pid);
      Relist(Remove(S, process.pid));
    }

    lemma RunningMeans(process: PCB)
      requires Valid() && Live(process)
      ensures process == running <==> S.running == Some(process.pid)
    {
    }

    // What the PCB of a live process says about it.
    lemma LiveMeans(process: PCB)
      requires Valid() && Live(process)
      ensures process in nodes && process.pid in S.procs
      ensures S.procs[process.pid] == Proc(process.state, process.priority)
      ensures process == running <==> S.running == Some(process.pid)
      ensures process == mainProcess <==> process.pid == MAIN_PID
    {
    }

    lemma ValidListed()
      requires Valid()
      ensures Listed(S)
    {
    }

    lemma RunnerMeans()
      requires Valid() && S.running.Some?
      ensures running != null && Live(running) && running.pid == S.running.value && running in nodes
      ensures S.running.value in S.procs && S.procs[S.running.value] == Proc(running.state, running.priority)
      ensures running == mainProcess <==> S.running.value == MAIN_PID
    {
    }

    // The pointer writes of remove_process for a process that is not running.
    method Unlink(process: PCB)
      requires Valid() && Live(process) && process.priority < LEVELS && S.running != Some(process.pid)
      modifies Heads(KindOf(process.state)), nodes`next
      ensures forall l | 0 <= l < LEVELS ::
        Heads(KindOf(process.state))[l] == (
          if l == process.priority && HeadOf(S, Slot(KindOf(process.state), l)) == Some(process.pid)
          then old(process.next) else old(Heads(KindOf(process.state))[l]))
      ensures forall p | p in byPid && p != process.pid ::
        byPid[p].next == (
          if Waiting(S, process.pid) && Waiting(S, p) && NextIn(S, p) == Some(process.pid)
          then old(process.next) else old(byPid[p].next))
    {
      hide Listed, NextIn, HeadOf, Waiting, Ptr;
      var queue, level := Heads(KindOf(process.state)), process.priority;
      if queue[level] == process {
        HeadIs(process);
        queue[level] := process.next;
        process.next := null;
      } else {
        HeadIs(process);
        var curProc := Before(process);
        if curProc != null {
          curProc.next := process.next;
          process.next := null;
        }
      }
    }

    lemma HeadIs(process: PCB)
      requires Valid() && Live(process) && process.priority < LEVELS
      ensures Heads(KindOf(process.state))[process.priority] == process <==>
        HeadOf(S, Home(S, process.pid)) == Some(process.pid)
      ensures HeadOf(S, Home(S, process.pid)) == Some(process.pid) ==>
        Waiting(S, process.pid) && forall x | Waiting(S, x) :: NextIn(S, x) != Some(process.pid)
    {
      hide NextIn;
      HeadMeans(S, Home(S, process.pid));
      if HeadOf(S, Home(S, process.pid)) == Some(process.pid) {
        HeadHasNoPredecessor(S, process.pid);
      }
    }

    // The walk to the process in front of the given one, which is not at the head.
    method Before(process: PCB) returns (curProc: PCB?)
      requires Valid() && Live(process) && process.priority < LEVELS
      requires HeadOf(S, Home(S, process.pid)) != Some(process.pid)
      ensures curProc == null ==>
        !Waiting(S, process.pid) && forall x | Waiting(S, x) :: NextIn(S, x) != Some(process.pid)
      ensures curProc != null ==>
        && Live(curProc) && Waiting(S, process.pid)
        && forall x :: Waiting(S, x) && NextIn(S, x) == Some(process.pid) <==> x == curProc.pid
    {
      hide Valid, Waiting, NextIn;
      LiveMeans(process);
      ValidListed();
      ghost var slot := Home(S, process.pid);
      ghost var q := S.Q(slot);
      HeadAt(slot.kind, slot.level);
      NotFirst(S, process.pid);
      curProc := Heads(KindOf(process.state))[process.priority];
      ghost var i := 0;
      while curProc != null && curProc.next != process
        invariant 0 <= i <= |q| && process.pid !in q[..i] && (i < |q| ==> q[i] != process.pid)
        invariant curProc == if i < |q| && q[i] in byPid then byPid[q[i]] else null
        invariant forall p | p in q :: p in byPid
        decreases |q| - i
      {
        ListAt(slot, i);
        if i + 1 < |q| {
          ListAt(slot, i + 1);
        }
        curProc := curProc.next;
        i := i + 1;
      }
      if curProc == null {
        assert q[..i] == q;
        Unlisted(S, process.pid);
        NoPredecessor(S, process.pid);
      } else {
        ListAt(slot, i);
        if i + 1 < |q| {
          ListAt(slot, i + 1);
        }
        ThePredecessor(S, process.pid, i);
      }
    }

    // dequeue_process
    method DequeueProcess(kind: Kind) returns (process: PCB?)
      requires Valid()
      modifies this`S, Heads(kind), nodes`next
      ensures Valid() && (process == null <==> First(old(S), kind) == LEVELS)
      ensures process == null ==> S == old(S)
      ensures process != null ==> Live(process) && process.next == null && (S, process.pid) == Pop(old(S), kind)
    {
      hide Listed, NextIn, Waiting, FirstFrom, HeadOf, Pop, Linked;
      var level := BestLevel(kind);
      if level == LEVELS {
        return null;
      }
      process := UnlinkFirst(kind, level);
    }

    // The first process of a non-empty list leaves it.
    method UnlinkFirst(kind: Kind, level: nat) returns (process: PCB)
      requires Valid() && level == First(S, kind) < LEVELS
      modifies this`S, Heads(kind), nodes`next
      ensures Valid() && Live(process) && process.next == null && (S, process.pid) == Pop(old(S), kind)
    {
      hide Listed, NextIn, Waiting, FirstFrom, HeadOf, Pop;
      PopLinks(S, kind);
      process := Heads(kind)[level];
      Heads(kind)[level] := process.next;
      process.next := null;
      Relist(Pop(S, kind).0);
    }

    // The scan for the first non-empty level.
    method BestLevel(kind: Kind) returns (i: nat)
      requires Valid()
      ensures i == First(S, kind)
    {
      hide Listed, NextIn;
      i := 0;
      while i < LEVELS && Heads(kind)[i] == null
        invariant i <= LEVELS && FirstFrom(S, kind, i) == First(S, kind)
      {
        HeadMeans(S, Slot(kind, i));
        i := i + 1;
      }
    }

    // process->state = st, for a process that is in no list
    method ChangeState(process: PCB, st: State)
      requires Valid() && Live(process) && !Waiting(S, process.pid)
      requires process != mainProcess || st == Ready
      modifies this`S, process`state
      ensures Valid() && S == SetState(old(S), process.pid, st)
    {
      hide Listed, NextIn, HeadOf, Waiting, Ptr;
      NotWaiting(S, process.pid);
      ChangeLinks(S, process.pid, S.procs[process.pid].(state := st));
      process.state := st;
      S := SetState(S, process.pid, st);
    }

    // process->priority = priority, for a process that is in no list
    method ChangeLevel(process: PCB, priority: nat)
      requires Valid() && Live(process) && !Waiting(S, process.pid)
      modifies this`S, process`priority
      ensures Valid() && S == SetLevel(old(S), process.pid, priority)
    {
      hide Listed, NextIn, HeadOf, Waiting, Ptr;
      NotWaiting(S, process.pid);
      ChangeLinks(S, process.pid, S.procs[process.pid].(priority := priority));
      process.priority := priority;
      S := SetLevel(S, process.pid, priority);
    }

    // proc_switch_handler: only the choice of the next process
    method ReleaseProcessor()
      requires Valid() && Base(S)
      requires MayContinue(S) ==> S.procs[S.running.value].priority < LEVELS && !Waiting(S, S.running.value)
      modifies this`S, this`running, readyQueue, nodes
      ensures Valid() && S == Switch(old(S))
    {
      hide Listed, NextIn, HeadOf, Waiting, FirstFrom, Enqueue, Linked;
      if running != null {
        if running != mainProcess {
          if running.state == Ready {
            EnqueueProcess(ReadyQ, running);
          }
        }
      }
      DispatchNext();
    }

    // running_process = process
    method SetRunning(process: PCB)
      requires Valid() && Live(process)
      modifies this`S, this`running
      ensures Valid() && S == old(S).(running := Some(process.pid)) && running == process
    {
      hide Listed, NextIn, HeadOf, Waiting;
      RunningLinks(S, Some(process.pid));
      running := process;
      S := S.(running := Some(process.pid));
    }

    method DispatchNext()
      requires Valid() && Base(S)
      modifies this`S, this`running, readyQueue, nodes
      ensures Valid() && S == Dispatch(old(S))
    {
      hide Listed, NextIn, HeadOf, FirstFrom, Waiting, Linked;
      if First(S, ReadyQ) < LEVELS {
        PopLinks(S, ReadyQ);
      }
      var process := DequeueProcess(ReadyQ);
      if process == null {
        process := mainProcess;
      }
      RunningLinks(S, Some(process.pid));
      SetRunning(process);
      if running.state == New {
        ChangeState(running, Ready);
      }
    }

    // ---------- looking processes up ----------

    // One of the fifteen lists, from its head.
    method FindInList(kind: Kind, level: nat, pid: Pid) returns (block: PCB?)
      requires Valid() && level < LEVELS
      ensures block == null ==> pid !in S.Q(Slot(kind, level))
      ensures block != null ==> Live(block) && block.pid == pid && pid in S.Q(Slot(kind, level))
    {
      hide Valid;
      ghost var slot := Slot(kind, level);
      ghost var q := S.Q(slot);
      HeadAt(kind, level);
      block := Heads(kind)[level];
      ghost var i := 0;
      if q != [] {
        ListAt(slot, 0);
      }
      while block != null && block.pid != pid
        invariant 0 <= i <= |q| && pid !in q[..i]
        invariant i < |q| ==> q[i] in byPid && block == byPid[q[i]] && Live(block) && block.pid == q[i]
        invariant i == |q| ==> block == null
        decreases |q| - i
      {
        ListAt(slot, i);
        if i + 1 < |q| {
          ListAt(slot, i + 1);
        }
        block := block.next;
        i := i + 1;
      }
      assert i == |q| ==> q[..i] == q;
    }

    // get_process_by_pid: the running process, then the ready, memory-blocked and
    // message-blocked lists from the best level down.
    method GetProcessByPid(pid: Pid) returns (process: PCB?)
      requires Valid() && Shape(S)
      ensures process == null <==> !Found(S, pid)
      ensures process != null ==> Live(process) && process.pid == pid
    {
      hide Listed, NextIn, HeadOf, Shape;
      if running != null && running.pid == pid {
        return running;
      }
      var kinds := [ReadyQ, MemQ, MsgQ];
      for j := 0 to 3
        invariant forall k, l | 0 <= k < j && 0 <= l < LEVELS :: pid !in S.Q(Slot(kinds[k], l))
      {
        for i := 0 to LEVELS
          invariant forall l | 0 <= l < i :: pid !in S.Q(Slot(kinds[j], l))
        {
          process := FindInList(kinds[j], i, pid);
          if process != null {
            ListedFound(S, pid, Slot(kinds[j], i));
            return process;
          }
        }
      }
      FoundListed(S, pid, kinds);
      return null;
    }

    // get_current_pid
    method GetCurrentPid() returns (pid: int)
      requires Valid()
      ensures pid == if S.running == None then -1 else S.running.value
    {
      if running == null {
        return -1;
      }
      return running.pid;
    }

    // is_pid_valid
    method IsPidValid(pid: Pid) returns (valid: bool)
      requires Valid() && Shape(S)
      ensures valid == Found(S, pid)
    {
      var process := GetProcessByPid(pid);
      return process != null;
    }

    // is_process_blocked
    method IsProcessBlocked(pid: Pid) returns (blocked: bool)
      requires Valid() && Shape(S)
      ensures blocked == CanWake(S, pid)
    {
      var process := GetProcessByPid(pid);
      if process == null {
        return false;
      }
      return process.state == BlockedMsg || process.state == BlockedMem;
    }

    // get_process_priority_handler
    method GetProcessPriority(pid: Pid) returns (priority: int)
      requires Valid() && Shape(S)
      ensures priority == GetPriority(S, pid)
    {
      var process := GetProcessByPid(pid);
      if process == null {
        return -1;
      }
      return process.priority;
    }

    // ---------- the primitives of core.c ----------

    // block_process
    method BlockProcess(pid: Pid, kind: Kind)
      requires Valid() && Steady(S) && kind != ReadyQ
      modifies this`S, this`running, readyQueue, memBlockedQueue, msgBlockedQueue, nodes
      ensures Valid() && S == BlockPid(old(S), pid, kind) && (pid != NULL_PID ==> Steady(S))
    {
      hide Valid, Waiting, Queued, Idle, NoneBefore, Switch, Enqueue, Remove;
      if pid != NULL_PID {
        BlockPidSteady(S, pid, kind);
      }
      var process := GetProcessByPid(pid);
      if process == null {
        return;
      }
      LiveMeans(process);
      if process.state == BlockedMsg || process.state == BlockedMem {
        return;
      }
      PidIsFree(S, pid, kind);
      RemoveProcess(process);
      ChangeState(process, Blocking(kind));
      LiveMeans(process);
      EnqueueProcess(kind, process);
      LiveMeans(process);
      if process == running {
        ReleaseProcessor();
      }
    }

    // unblock_process_by_pid
    method UnblockProcessByPid(pid: Pid, allowReleaseProcessor: bool)
      requires Valid() && Shape(S) && Idle(S) && S.running.Some? && S.procs[S.running.value].state == Ready
      modifies this`S, this`running, readyQueue, memBlockedQueue, msgBlockedQueue, nodes
      ensures Valid() && S == UnblockPid(old(S), pid, allowReleaseProcessor)
    {
      hide Valid, Waiting, Queued, Shape, Idle, Switch, Enqueue, Remove;
      RunnerMeans();
      var process := GetProcessByPid(pid);
      if process == null {
        return;
      }
      LiveMeans(process);
      if process.state != BlockedMsg && process.state != BlockedMem {
        return;
      }
      WakeShape(S, pid);
      WakeIsFree(S, pid);
      RemoveProcess(process);
      ChangeState(process, Ready);
      LiveMeans(process);
      EnqueueProcess(ReadyQ, process);
      RunnerMeans();
      LiveMeans(process);
      if process.priority < running.priority && allowReleaseProcessor {
        RunningIsFree(S);
        ReleaseProcessor();
      }
    }

    // unblock_process_by_type
    method UnblockProcessByType(kind: Kind)
      requires Valid() && Steady(S) && kind != ReadyQ
      modifies this`S, this`running, readyQueue, memBlockedQueue, msgBlockedQueue, nodes
      ensures Valid() && S == UnblockType(old(S), kind) && Steady(S)
    {
      hide Valid, Waiting, Queued, NoneBefore, Switch, Enqueue, FirstFrom;
      RunnerMeans();
      UnblockTypeSteady(S, kind);
      var i := BestLevel(kind);
      if i == LEVELS {
        return;
      }
      PopIsFree(S, kind);
      ValidListed();
      PopLinks(S, kind);
      var process := DequeueProcess(kind);
      LiveMeans(process);
      ChangeState(process, Ready);
      LiveMeans(process);
      EnqueueProcess(ReadyQ, process);
      RunnerMeans();
      LiveMeans(process);
      if process.priority < running.priority {
        RunningIsFree(S);
        ReleaseProcessor();
      }
    }

    // A waiting process is taken out of its list and put into that of its new level.
    method MoveToLevel(block: PCB, priority: nat)
      requires Valid() && Steady(S) && Live(block) && block.pid !in Outside(S) && priority < LEVELS
      modifies this`S, readyQueue, memBlockedQueue, msgBlockedQueue, nodes
      ensures Valid() && S == Requeue(old(S), block.pid, priority)
    {
      hide Valid, Waiting, Queued, NoneBefore, Enqueue, Remove;
      LiveMeans(block);
      RequeueIsFree(S, block.pid, priority);
      RemoveProcess(block);
      ChangeLevel(block, priority);
      LiveMeans(block);
      EnqueueProcess(KindOf(block.state), block);
    }

    // set_process_priority_handler
    method SetProcessPriority(pid: int, priority: int) returns (code: int)
      requires Valid() && Steady(S)
      modifies this`S, this`running, readyQueue, memBlockedQueue, msgBlockedQueue, nodes
      ensures Valid() && (S, code) == SetPriority(old(S), pid, priority) && Steady(S)
    {
      hide Valid, Waiting, Queued, NoneBefore, Switch, Requeue;
      RunnerMeans();
      SetPrioritySteady(S, pid, priority);
      if pid <= 0 {
        return 2;
      }
      if priority < 0 || priority > 3 {
        return 3;
      }
      var block := GetProcessByPid(pid);
      if block == null {
        return 4;
      }
      LiveMeans(block);
      if priority == block.priority {
        return 0;
      }
      if block != running {
        RequeueShape(S, pid, priority);
        MoveToLevel(block, priority);
        RunnerMeans();
        LiveMeans(block);
        if priority < running.priority && KindOf(block.state) == ReadyQ {
          RunningIsFree(S);
          ReleaseProcessor();
        }
      } else {
        var oldPriority := block.priority;
        RunningIsFree(S);
        ChangeLevel(block, priority);
        LiveMeans(block);
        if priority > oldPriority {
          LevelIsFree(old(S), pid, priority);
          ReleaseProcessor();
        }
      }
      return 0;
    }

    // process_bootstrap after the process body has returned
    method TerminateRunning()
      requires Valid() && Steady(S) && S.running.value != NULL_PID
      modifies this`S, this`running, this`byPid, this`nodes, readyQueue, memBlockedQueue, msgBlockedQueue, nodes
      ensures Valid() && S == Terminate(old(S)) && Steady(S) && nodes == old(nodes - {running})
    {
      hide Valid, Waiting, Shape, Idle, NoneBefore, Switch, Remove;
      RunnerMeans();
      TerminateSteady(S);
      RunningIsFree(S);
      TerminatedIsFree(S);
      RemoveRunning(S, running.pid);
      var block := running;
      RemoveProcess(block);
      RunnerMeans();
      Forget(block);
      ReleaseProcessor();
    }

    // running_process = NULL, for a process that is in no list
    method Forget(block: PCB)
      requires Valid() && running == block && block != mainProcess && !Waiting(S, block.pid)
      modifies this`S, this`running, this`byPid, this`nodes
      ensures Valid() && S == old(S).(running := None, procs := old(S).procs - {block.pid})
      ensures nodes == old(nodes) - {block}
    {
      hide Listed, NextIn, HeadOf, Waiting;
      ForgetLinks(S, block.pid);
      running := null;
      byPid := byPid - {block.pid};
      nodes := nodes - {block};
      S := S.(running := None, procs := S.procs - {block.pid});
    }

    // ---------- initialize.c ----------

    // A new PCB enters the process table.
    method CreateProcess(row: Pib) returns (block: PCB)
      requires Valid() && row.pid !in S.procs
      modifies this`S, this`byPid, this`nodes
      ensures Valid() && S == old(S).(procs := old(S).procs[row.pid := Proc(New, row.priority)])
      ensures nodes == old(nodes) + {block} && fresh(block)
      ensures Live(block) && block.pid == row.pid && !Waiting(S, block.pid)
    {
      block := new PCB(row.pid, New, row.priority);
      Register(block);
    }

    // It is in no list yet.
    ghost method Register(block: PCB)
      requires Valid() && block.pid !in S.procs && block !in nodes && block.state == New
      modifies this`S, this`byPid, this`nodes
      ensures Valid() && S == old(S).(procs := old(S).procs[block.pid := Proc(New, block.priority)])
      ensures nodes == old(nodes) + {block} && Live(block) && !Waiting(S, block.pid)
    {
      hide Listed, NextIn, HeadOf, Waiting, Ptr, Spells;
      if S.running.Some? {
        RunnerMeans();
      }
      ghost var t := S.(procs := S.procs[block.pid := Proc(New, block.priority)]);
      AdmitSpells(t, block.pid, block.priority);
      PtrGrows(byPid, block);
      EnterTable(block, t);
      S := t;
    }

    // The links do not change when the table of PCBs grows.
    ghost method EnterTable(block: PCB, t: Sched)
      requires Spells(t) && !Waiting(t, block.pid) && forall p | p in byPid :: byPid[p] != block
      requires forall slot :: HeadOf(t, slot) != Some(block.pid)
      requires forall x | Waiting(t, x) :: NextIn(t, x) != Some(block.pid)
      modifies this`byPid, this`nodes
      ensures Spells(t) && byPid == old(byPid)[block.pid := block] && nodes == old(nodes) + {block}
    {
      hide NextIn, HeadOf, Waiting, Ptr;
      PtrGrows(byPid, block);
      byPid := byPid[block.pid := block];
      nodes := nodes + {block};
    }

    // The links already spell out the lists of the larger process table.
    lemma AdmitSpells(t: Sched, pid: Pid, priority: nat)
      requires Valid() && pid !in S.procs && t == S.(procs := S.procs[pid := Proc(New, priority)])
      ensures Spells(t) && Listed(t) && !Waiting(t, pid) && byPid.Keys == S.procs.Keys
      ensures forall slot :: HeadOf(t, slot) != Some(pid)
      ensures forall x | Waiting(t, x) :: NextIn(t, x) != Some(pid)
    {
      hide Listed, NextIn, HeadOf, Waiting, Ptr;
      AdmitLinks(S, Pib(pid, priority));
    }

    // It starts at the end of its ready list.
    method AdmitProcess(row: Pib)
      requires Valid() && row.pid !in S.procs && row.priority < LEVELS
      modifies this`S, this`byPid, this`nodes, readyQueue, nodes`next
      ensures Valid() && S == Admit(old(S), row) && fresh(nodes - old(nodes)) && running == old(running)
    {
      hide Listed, NextIn, HeadOf, Waiting, Enqueue, Linked;
      var block := CreateProcess(row);
      EnqueueProcess(ReadyQ, block);
    }

    // initialize_processes
    method InitializeProcesses(table: seq<Pib>)
      requires Valid() && S == Admitted([]) && GoodTable(table)
      modifies this`S, this`byPid, this`nodes, readyQueue, nodes`next
      ensures Valid() && S == Admitted(table) && fresh(nodes - old(nodes))
    {
      hide Valid, Waiting, Admit;
      for i := 0 to |table|
        invariant Valid() && S == Admitted(table[..i]) && fresh(nodes - old(nodes))
      {
        AdmittedShape(table, i);
        assert table[..i + 1][..i] == table[..i];
        AdmitProcess(table[i]);
      }
      assert table[..|table|] == table;
    }

    // The end of main()
    method Start(ghost table: seq<Pib>)
      requires Valid() && GoodTable(table) && S == Admitted(table)
      modifies this`S, this`running, readyQueue, nodes
      ensures Valid() && S == Started(table) && Steady(S)
    {
      hide Listed, NextIn, HeadOf, Waiting, Queued, Admitted, Switch, Linked;
      StartedSteady(table);
      AdmittedShape(table, |table|);
      assert table[..|table|] == table;
      SetRunning(mainProcess);
      ReleaseProcessor();
    }
  }

  lemma PtrGrows(byPid: map<Pid, PCB>, block: PCB)
    ensures var t := byPid[block.pid := block];
      forall link | link != Some(block.pid) :: Ptr(t, link) == Ptr(byPid, link)
  {
  }

  // A new process is in no list, and the lists do not change.
  lemma AdmitLinks(s: Sched, row: Pib)
    requires Listed(s) && row.pid !in s.procs
    ensures var t := s.(procs := s.procs[row.pid := Proc(New, row.priority)]);
      && Listed(t) && (forall slot :: HeadOf(t, slot) == HeadOf(s, slot))
      && (forall x :: Waiting(t, x) <==> Waiting(s, x)) && (forall x | Waiting(t, x) :: NextIn(t, x) == NextIn(s, x))
      && !Waiting(t, row.pid)
    ensures forall slot :: HeadOf(s, slot) != Some(row.pid)
    ensures forall x | Waiting(s, x) :: NextIn(s, x) != Some(row.pid)
  {
    var t := s.(procs := s.procs[row.pid := Proc(New, row.priority)]);
    NoPredecessor(s, row.pid);
    forall slot ensures t.Q(slot) == s.Q(slot) && row.pid !in s.Q(slot) && GoodList(t, {}, slot) {
      assert GoodList(s, {}, slot);
    }
    forall x ensures Waiting(t, x) <==> Waiting(s, x) {
    }
  }

  // The running process may be queued, or queued again.
  lemma RunningIsFree(s: Sched)
    requires Shape(s) && s.running.Some?
    ensures !Waiting(s, s.running.value) && Base(s) && s.running.value in s.procs
    ensures MayContinue(s) ==> s.procs[s.running.value].priority < LEVELS
  {
    if s.running.value in s.procs {
      assert GoodList(s, Outside(s), Home(s, s.running.value));
    }
  }

  // A process that is put to sleep is in no list between leaving one and joining the
  // other, and if it was running it does not continue.
  lemma PidIsFree(s: Sched, pid: Pid, kind: Kind)
    requires Steady(s) && Found(s, pid) && !IsBlocked(s.procs[pid].state) && kind != ReadyQ
    ensures var t := Remove(s, pid); var u := SetState(t, pid, Blocking(kind)); var v := Enqueue(u, kind, pid);
      && t.procs == s.procs && t.running == s.running && !Waiting(t, pid) && !Waiting(u, pid)
      && pid != MAIN_PID && s.procs[pid].priority < LEVELS && KindOf(u.procs[pid].state) == kind
      && v.running == s.running && (s.running == Some(pid) ==> Base(v) && !MayContinue(v))
  {
    var out := Outside(s);
    var t := Remove(s, pid);
    if s.running != Some(pid) {
      assert AtHome(s, pid);
      RemoveShape(s, out, pid);
    }
    forall slot ensures pid !in t.Q(slot) {
      assert GoodList(t, if s.running == Some(pid) then out else out + {pid}, slot);
    }
    assert forall slot :: SetState(t, pid, Blocking(kind)).Q(slot) == t.Q(slot);
  }

  // A woken process is in no list between leaving one and joining the other.
  lemma WakeIsFree(s: Sched, pid: Pid)
    requires Shape(s) && CanWake(s, pid) && s.running.Some? && !IsBlocked(s.procs[s.running.value].state)
    ensures var t := Remove(s, pid); var u := SetState(t, pid, Ready);
      && t.procs == s.procs && t.running == s.running && !Waiting(t, pid) && !Waiting(u, pid)
      && pid != MAIN_PID && s.procs[pid].priority < LEVELS && s.running != Some(pid)
  {
    assert AtHome(s, pid);
    RemoveShape(s, Outside(s), pid);
    var t := Remove(s, pid);
    forall slot ensures pid !in t.Q(slot) {
      assert GoodList(t, Outside(s) + {pid}, slot);
    }
    assert forall slot :: SetState(t, pid, Ready).Q(slot) == t.Q(slot);
  }

  lemma ListedFound(s: Sched, pid: Pid, slot: Slot)
    requires Shape(s) && pid in s.Q(slot)
    ensures Found(s, pid)
  {
    assert GoodList(s, Outside(s), slot);
  }

  lemma FoundListed(s: Sched, pid: Pid, kinds: seq<Kind>)
    requires Shape(s) && kinds == [ReadyQ, MemQ, MsgQ]
    ensures Found(s, pid) && s.running != Some(pid) ==>
      exists k, l :: 0 <= k < 3 && 0 <= l < LEVELS && pid in s.Q(Slot(kinds[k], l))
  {
    if Found(s, pid) && s.running != Some(pid) {
      var k := if KindOf(s.procs[pid].state) == ReadyQ then 0 else if KindOf(s.procs[pid].state) == MemQ then 1 else 2;
      assert AtHome(s, pid) && Home(s, pid) == Slot(kinds[k], s.procs[pid].priority);
    }
  }

  lemma HeadHasNoPredecessor(s: Sched, p: Pid)
    requires Listed(s) && p in s.procs && HeadOf(s, Home(s, p)) == Some(p)
    ensures Waiting(s, p) && forall x | Waiting(s, x) :: NextIn(s, x) != Some(p)
  {
    assert s.Q(Home(s, p))[0] in s.Q(Home(s, p));
    forall x | Waiting(s, x) ensures NextIn(s, x) != Some(p) {
      OnePredecessor(s, p, x);
    }
  }

  lemma NotFirst(s: Sched, p: Pid)
    requires p in s.procs && HeadOf(s, Home(s, p)) != Some(p)
    ensures s.Q(Home(s, p)) != [] ==> s.Q(Home(s, p))[0] != p
  {
  }

  lemma Unlisted(s: Sched, p: Pid)
    requires Listed(s) && p in s.procs && p !in s.Q(Home(s, p))
    ensures !Waiting(s, p)
  {
  }

  lemma NoPredecessor(s: Sched, p: Pid)
    requires Listed(s) && !Waiting(s, p)
    ensures forall x | Waiting(s, x) :: NextIn(s, x) != Some(p)
  {
    forall x | Waiting(s, x) ensures NextIn(s, x) != Some(p) {
      assert GoodList(s, {}, Home(s, x));
    }
  }

  lemma ThePredecessor(s: Sched, p: Pid, i: nat)
    requires Listed(s) && p in s.procs && i + 1 < |s.Q(Home(s, p))| && s.Q(Home(s, p))[i + 1] == p
    ensures Waiting(s, p)
    ensures forall x :: Waiting(s, x) && NextIn(s, x) == Some(p) <==> x == s.Q(Home(s, p))[i]
  {
    var q := s.Q(Home(s, p));
    AtIndex(s, Home(s, p), i);
    assert GoodList(s, {}, Home(s, p)) && p in q;
    forall x
      ensures Waiting(s, x) && NextIn(s, x) == Some(p) <==> x == q[i]
    {
      if Waiting(s, x) {
        OnePredecessor(s, p, x);
      }
    }
  }

  method NewQueue() returns (queue: array<PCB?>)
    ensures fresh(queue) && queue.Length == LEVELS && forall i | 0 <= i < LEVELS :: queue[i] == null
  {
    queue := new PCB?[LEVELS];
    for i := 0 to LEVELS
      invariant forall j | 0 <= j < i :: queue[j] == null
    {
      queue[i] := null;
    }
  }

  lemma HeadMeans(s: Sched, slot: Slot)
    requires Listed(s)
    ensures HeadOf(s, slot) == None <==> s.Q(slot) == []
    ensures HeadOf(s, slot).Some? ==> Waiting(s, HeadOf(s, slot).value) && Home(s, HeadOf(s, slot).value) == slot
  {
    assert GoodList(s, {}, slot);
    assert s.Q(slot) != [] ==> s.Q(slot)[0] in s.Q(slot);
  }

  // What remove_process does to the links, whether or not it finds the process.
  lemma RemoveAny(s: Sched, p: Pid)
    requires Listed(s) && p in s.procs && s.running != Some(p)
    ensures var t := Remove(s, p);
      && Listed(t) && t.procs == s.procs && t.running == s.running
      && (forall slot | HeadOf(s, slot) != Some(p) :: HeadOf(t, slot) == HeadOf(s, slot))
      && (forall x :: Waiting(t, x) <==> x != p && Waiting(s, x))
      && (forall x | Waiting(t, x) :: NextIn(t, x) ==
            if Waiting(s, p) && NextIn(s, x) == Some(p) then NextIn(s, p) else NextIn(s, x))
    ensures forall slot | HeadOf(s, slot) == Some(p) ::
      Waiting(s, p) && slot == Home(s, p) && HeadOf(Remove(s, p), slot) == NextIn(s, p)
  {
    hide Listed, NextIn, Remove, HeadOf;
    if Waiting(s, p) {
      RemoveLinks(s, p);
    } else {
      RemoveNothing(s, p);
    }
    forall slot | HeadOf(s, slot) == Some(p) ensures slot == Home(s, p) && Waiting(s, p) {
      HeadMeans(s, slot);
    }
  }

  lemma RemoveRunning(s: Sched, p: Pid)
    requires p in s.procs && s.running == Some(p)
    ensures Remove(s, p) == s
  {
  }

  lemma NoLists()
    ensures var s := Admitted([]);
      && Listed(s) && s.procs == map[MAIN_PID := Proc(Ready, MAIN_PRIORITY)] && s.running == None
      && (forall slot :: HeadOf(s, slot) == None) && (forall p :: !Waiting(s, p))
  {
    forall slot ensures GoodList(Admitted([]), {}, slot) {
    }
  }

  // The process a release wakes is in no list between leaving one and joining the other.
  lemma PopIsFree(s: Sched, kind: Kind)
    requires Steady(s) && First(s, kind) < LEVELS && kind != ReadyQ
    ensures var (t, p) := Pop(s, kind);
      p in t.procs && p in s.procs && p !in Outside(s) && s.procs[p].priority < LEVELS && !Waiting(t, p)
    ensures var (t, p) := Pop(s, kind);
      p in t.procs ==> var u := SetState(t, p, Ready);
        !Waiting(u, p) && Shape(Enqueue(u, ReadyQ, p)) && Enqueue(u, ReadyQ, p).running == s.running
  {
    var out := Outside(s);
    var (t, p) := Pop(s, kind);
    PopShape(s, out, kind);
    assert GoodList(t, out + {p}, Home(t, p)) && GoodList(t, out + {p}, Slot(ReadyQ, s.procs[p].priority));
    ChangeShape(t, out + {p}, p, t.procs[p].(state := Ready));
    EnqueueShape(SetState(t, p, Ready), out + {p}, p);
    assert out + {p} - {p} == out;
    assert Outside(Enqueue(SetState(t, p, Ready), ReadyQ, p)) == out;
  }

  lemma RequeueIsFree(s: Sched, pid: Pid, priority: nat)
    requires Steady(s) && pid in s.procs && pid !in Outside(s)
    ensures var t := Remove(s, pid);
      t.procs == s.procs && t.running == s.running && !Waiting(t, pid) && !Waiting(SetLevel(t, pid, priority), pid)
      && s.procs[pid].priority < LEVELS
  {
    assert AtHome(s, pid);
    RemoveShape(s, Outside(s), pid);
    var t := Remove(s, pid);
    forall slot ensures pid !in t.Q(slot) {
      assert GoodList(t, Outside(s) + {pid}, slot);
    }
    assert forall slot :: SetLevel(t, pid, priority).Q(slot) == t.Q(slot);
  }

  lemma LevelIsFree(s: Sched, pid: Pid, priority: nat)
    requires Steady(s) && s.running == Some(pid) && priority < LEVELS
    ensures var t := SetLevel(s, pid, priority);
      Base(t) && !Waiting(t, pid) && t.procs[pid].priority < LEVELS
  {
    var t := SetLevel(s, pid, priority);
    assert GoodList(s, Outside(s), Home(t, pid)) && t.Q(Home(t, pid)) == s.Q(Home(t, pid));
  }

  lemma TerminatedIsFree(s: Sched)
    requires Steady(s)
    ensures var t := s.(running := None, procs := s.procs - {s.running.value}); Base(t) && !MayContinue(t)
  {
  }

  // A process in no list can leave the process table.
  lemma ForgetLinks(s: Sched, p: Pid)
    requires Listed(s) && !Waiting(s, p)
    ensures var t := s.(running := None, procs := s.procs - {p});
      && Listed(t) && (forall slot :: HeadOf(t, slot) == HeadOf(s, slot))
      && (forall x :: Waiting(t, x) <==> Waiting(s, x)) && (forall x | Waiting(t, x) :: NextIn(t, x) == NextIn(s, x))
    ensures forall slot :: HeadOf(s, slot) != Some(p)
    ensures forall x | Waiting(s, x) :: NextIn(s, x) != Some(p)
  {
    var t := s.(running := None, procs := s.procs - {p});
    NotWaiting(s, p);
    NoPredecessor(s, p);
    forall slot ensures t.Q(slot) == s.Q(slot) && GoodList(t, {}, slot) {
      assert GoodList(s, {}, slot);
    }
    forall x ensures Waiting(t, x) <==> Waiting(s, x) {
    }
  }
}
