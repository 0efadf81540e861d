// The scheduler of core.c as a state machine on values: three families of five
// queues, the process table and the running process.
module SchedSpec {
  import opened Rtx
  import opened Seqs

  datatype State = New | Ready | BlockedMem | BlockedMsg
  datatype Kind = ReadyQ | MemQ | MsgQ
  datatype Proc = Proc(state: State, priority: nat)
  datatype Slot = Slot(kind: Kind, level: nat)

  datatype Sched = Sched(procs: map<Pid, Proc>, queues: map<Slot, seq<Pid>>, running: Option<Pid>) {
    function Q(slot: Slot): seq<Pid> {
      if slot in queues then queues[slot] else []
    }
  }

  // The state with one list replaced.
  function PutQ(s: Sched, slot: Slot, q: seq<Pid>): (t: Sched)
    ensures t.Q(slot) == q && forall other | other != slot :: t.Q(other) == s.Q(other)
    ensures t.procs == s.procs && t.running == s.running
  {
    s.(queues := s.queues[slot := q])
  }

  predicate IsBlocked(st: State) {
    st == BlockedMem || st == BlockedMsg
  }

  function KindOf(st: State): Kind {
    match st
    case BlockedMsg => MsgQ
    case BlockedMem => MemQ
    case _ => ReadyQ
  }

  function Blocking(kind: Kind): State {
    match kind
    case MemQ => BlockedMem
    case MsgQ => BlockedMsg
    case ReadyQ => Ready
  }

  // The one list a queued process must be in; the kernel recomputes it each time.
  function Home(s: Sched, p: Pid): Slot
    requires p in s.procs
  {
    Slot(KindOf(s.procs[p].state), s.procs[p].priority)
  }

  // ---------- the operations of core.c ----------

  // get_process_by_pid finds every live process, and main only while it runs.
  predicate Found(s: Sched, pid: Pid) {
    pid in s.procs && (pid == MAIN_PID ==> s.running == Some(MAIN_PID))
  }

  function Enqueue(s: Sched, kind: Kind, p: Pid): Sched
    requires p in s.procs
  {
    var slot := Slot(kind, s.procs[p].priority);
    PutQ(s, slot, s.Q(slot) + [p])
  }

  function Remove(s: Sched, p: Pid): Sched
    requires p in s.procs
  {
    if s.running == Some(p) then s
    else PutQ(s, Home(s, p), Without(s.Q(Home(s, p)), p))
  }

  function SetState(s: Sched, p: Pid, st: State): Sched
    requires p in s.procs
  {
    s.(procs := s.procs[p := s.procs[p].(state := st)])
  }

  // The best non-empty level of a family at or after level i, or LEVELS.
  function FirstFrom(s: Sched, kind: Kind, i: nat): (l: nat)
    requires i <= LEVELS
    ensures i <= l <= LEVELS
    ensures forall j | i <= j < l :: s.Q(Slot(kind, j)) == []
    ensures l < LEVELS ==> s.Q(Slot(kind, l)) != []
    decreases LEVELS - i
  {
    if i == LEVELS || s.Q(Slot(kind, i)) != [] then i else FirstFrom(s, kind, i + 1)
  }

  function First(s: Sched, kind: Kind): nat {
    FirstFrom(s, kind, 0)
  }

  // The longest-queued process of the best non-empty level leaves its queue.
  function Pop(s: Sched, kind: Kind): (Sched, Pid)
    requires First(s, kind) < LEVELS
  {
    var slot := Slot(kind, First(s, kind));
    (PutQ(s, slot, s.Q(slot)[1..]), s.Q(slot)[0])
  }

  function Dispatch(s: Sched): Sched {
    if First(s, ReadyQ) == LEVELS then s.(running := Some(MAIN_PID))
    else
      var (t, p) := Pop(s, ReadyQ);
      var u := t.(running := Some(p));
      if p in u.procs && u.procs[p].state == New then SetState(u, p, Ready) else u
  }

  // proc_switch_handler
  function Switch(s: Sched): Sched {
    if s.running.Some? && s.running.value != MAIN_PID
       && s.running.value in s.procs && s.procs[s.running.value].state == Ready
    then Dispatch(Enqueue(s, ReadyQ, s.running.value))
    else Dispatch(s)
  }

  // block_process
  function BlockPid(s: Sched, pid: Pid, kind: Kind): Sched {
    if !Found(s, pid) || IsBlocked(s.procs[pid].state) then s
    else
      var t := Enqueue(SetState(Remove(s, pid), pid, Blocking(kind)), kind, pid);
      if s.running == Some(pid) then Switch(t) else t
  }

  // block_process as the kernel uses it: the running process goes to sleep.
  function BlockRunning(s: Sched, kind: Kind): Sched
    requires s.running.Some? && s.running.value in s.procs
  {
    BlockPid(s, s.running.value, kind)
  }

  // A woken process outranks the running one.
  predicate Outranks(s: Sched, p: Pid) {
    p in s.procs && s.running.Some? && s.running.value in s.procs
    && s.procs[p].priority < s.procs[s.running.value].priority
  }

  predicate CanWake(s: Sched, pid: Pid) {
    Found(s, pid) && IsBlocked(s.procs[pid].state)
  }

  // unblock_process_by_pid up to the decision to release the processor
  function Wake(s: Sched, pid: Pid): Sched {
    if CanWake(s, pid) then Enqueue(SetState(Remove(s, pid), pid, Ready), ReadyQ, pid) else s
  }

  function UnblockPid(s: Sched, pid: Pid, allow: bool): Sched {
    if CanWake(s, pid) && allow && Outranks(Wake(s, pid), pid) then Switch(Wake(s, pid)) else Wake(s, pid)
  }

  function UnblockType(s: Sched, kind: Kind): Sched {
    if First(s, kind) == LEVELS then s
    else
      var (t, p) := Pop(s, kind);
      if p !in t.procs then t else
      var u := Enqueue(SetState(t, p, Ready), ReadyQ, p);
      if Outranks(u, p) then Switch(u) else u
  }

  // The wake-ups of one timer tick, in order, none of which releases the processor.
  function WakeAll(s: Sched, pids: seq<Pid>): Sched {
    if pids == [] then s else Wake(WakeAll(s, pids[..|pids| - 1]), pids[|pids| - 1])
  }

  // highest_priority: the best priority among those woken, starting from 4.
  function BestWoken(s: Sched, pids: seq<Pid>): nat {
    if pids == [] then NULL_PRIORITY else
      var front, p := pids[..|pids| - 1], pids[|pids| - 1];
      var best := BestWoken(s, front);
      var t := WakeAll(s, front);
      if CanWake(t, p) && t.procs[p].priority < best then t.procs[p].priority else best
  }

  function WakeMany(s: Sched, pids: seq<Pid>): Sched {
    var t := WakeAll(s, pids);
    if t.running.Some? && t.running.value in t.procs && BestWoken(s, pids) < t.procs[t.running.value].priority
    then Switch(t) else t
  }

  // set_process_priority_handler; the second component is the value returned.
  function SetPriority(s: Sched, pid: int, priority: int): (Sched, int) {
    if pid <= 0 then (s, 2)
    else if priority < 0 || priority > 3 then (s, 3)
    else if !Found(s, pid) then (s, 4)
    else if s.procs[pid].priority == priority then (s, 0)
    else
      if s.running != Some(pid) then
        var t := Requeue(s, pid, priority);
        if Outranks(t, pid) && KindOf(t.procs[pid].state) == ReadyQ then (Switch(t), 0) else (t, 0)
      else
        var t := SetLevel(s, pid, priority);
        if priority > s.procs[pid].priority then (Switch(t), 0) else (t, 0)
  }

  function SetLevel(s: Sched, p: Pid, priority: nat): Sched
    requires p in s.procs
  {
    s.(procs := s.procs[p := s.procs[p].(priority := priority)])
  }

  // A waiting process changes level: it goes to the end of its new list.
  function Requeue(s: Sched, p: Pid, priority: nat): Sched
    requires p in s.procs
  {
    var t := SetLevel(Remove(s, p), p, priority);
    Enqueue(t, KindOf(t.procs[p].state), p)
  }

  function GetPriority(s: Sched, pid: Pid): int {
    if Found(s, pid) then s.procs[pid].priority else -1
  }

  // process_bootstrap after the body of the running process has returned
  function Terminate(s: Sched): Sched
    requires s.running.Some?
  {
    Switch(s.(running := None, procs := s.procs - {s.running.value}))
  }

  // ---------- the invariants ----------

  // Every list holds distinct processes whose home it is; every process outside
  // `out` is in its home list, and those in `out` are in no list.
  ghost predicate Queued(s: Sched, out: set<Pid>) {
    (forall slot :: GoodList(s, out, slot)) && (forall p | p in s.procs && p !in out :: AtHome(s, p))
  }

  ghost predicate GoodList(s: Sched, out: set<Pid>, slot: Slot) {
    NoDup(s.Q(slot)) && forall p | p in s.Q(slot) :: p in s.procs && p !in out && Home(s, p) == slot
  }

  ghost predicate AtHome(s: Sched, p: Pid) {
    p in s.procs && s.procs[p].priority < LEVELS && p in s.Q(Home(s, p))
  }

  function Outside(s: Sched): set<Pid> {
    {MAIN_PID} + (if s.running.Some? then {s.running.value} else {})
  }

  // main is always in the process table and pids fit a machine word.
  ghost predicate Base(s: Sched) {
    && MAIN_PID in s.procs && s.procs[MAIN_PID] == Proc(Ready, MAIN_PRIORITY)
    && forall p | p in s.procs :: p < WORD
  }

  // The global shape of the scheduler: the running process and main are in no
  // list, everybody else is in exactly one, namely its home.
  ghost predicate Shape(s: Sched) {
    && Base(s) && Queued(s, Outside(s))
    && (s.running.Some? ==> s.running.value in s.procs)
    && (s.running.Some? && s.running.value != MAIN_PID ==> s.procs[s.running.value].priority < LEVELS)
  }

  // No level better than l holds a ready process.
  ghost predicate NoneBefore(s: Sched, l: nat) {
    forall i | 0 <= i < l :: s.Q(Slot(ReadyQ, i)) == []
  }

  // The null process never blocks and is alone at level 4.
  ghost predicate Idle(s: Sched) {
    && NULL_PID in s.procs && s.procs[NULL_PID].priority == NULL_PRIORITY
    && !IsBlocked(s.procs[NULL_PID].state)
    && (forall p | p in s.procs && p != NULL_PID && p != MAIN_PID :: s.procs[p].priority < NULL_PRIORITY)
  }

  // What holds whenever a process is executing its own code.
  ghost predicate Steady(s: Sched) {
    && Shape(s) && Idle(s)
    && s.running.Some? && s.running.value != MAIN_PID
    && s.procs[s.running.value].state == Ready
    && NoneBefore(s, s.procs[s.running.value].priority)
  }

  // s' differs from s only in the lists, in who runs, and in New processes that
  // have been started.
  ghost predicate SameWaits(s: Sched, s': Sched) {
    && s'.procs.Keys == s.procs.Keys
    && (forall p | p in s.procs :: s'.procs[p].priority == s.procs[p].priority)
    && (forall p | p in s.procs :: s'.procs[p].state == s.procs[p].state
                               || (s.procs[p].state == New && s'.procs[p].state == Ready))
  }

  // ---------- the building blocks keep the shape ----------

  lemma EnqueueShape(s: Sched, out: set<Pid>, p: Pid)
    requires Queued(s, out) && p in out && p in s.procs && s.procs[p].priority < LEVELS
    ensures Queued(Enqueue(s, KindOf(s.procs[p].state), p), out - {p})
  {
    var home := Home(s, p);
    var t := Enqueue(s, KindOf(s.procs[p].state), p);
    forall slot ensures GoodList(t, out - {p}, slot) {
      assert GoodList(s, out, slot);
    }
    forall x | x in t.procs && x !in out - {p} ensures AtHome(t, x) {
      if x == p {
        assert t.Q(home)[|s.Q(home)|] == p;
      } else {
        assert AtHome(s, x);
      }
    }
  }

  lemma RemoveShape(s: Sched, out: set<Pid>, p: Pid)
    requires Queued(s, out) && p !in out && p in s.procs && s.running != Some(p)
    ensures Queued(Remove(s, p), out + {p})
  {
    var t := Remove(s, p);
    forall slot ensures GoodList(t, out + {p}, slot) {
      assert GoodList(s, out, slot);
      WithoutMembers(s.Q(slot), p);
    }
    forall x | x in t.procs && x !in out + {p} ensures AtHome(t, x) {
      assert AtHome(s, x) && GoodList(s, out, Home(s, x));
      WithoutMembers(s.Q(Home(s, x)), p);
    }
  }

  lemma PopShape(s: Sched, out: set<Pid>, kind: Kind)
    requires Queued(s, out) && First(s, kind) < LEVELS
    ensures var (t, p) := Pop(s, kind);
      && Queued(t, out + {p}) && p in s.procs && p !in out
      && Home(s, p) == Slot(kind, First(s, kind)) && s.procs[p].priority == First(s, kind)
  {
    var home := Slot(kind, First(s, kind));
    var (t, p) := Pop(s, kind);
    assert GoodList(s, out, home) && p in s.Q(home);
    assert s.Q(home) == [p] + t.Q(home);
    forall slot ensures GoodList(t, out + {p}, slot) {
      assert GoodList(s, out, slot);
      assert slot != home ==> p !in s.Q(slot);
    }
    forall x | x in t.procs && x !in out + {p} ensures AtHome(t, x) {
      assert AtHome(s, x);
    }
  }

  lemma ChangeShape(s: Sched, out: set<Pid>, p: Pid, proc: Proc)
    requires Queued(s, out) && p in out && p in s.procs
    ensures Queued(s.(procs := s.procs[p := proc]), out)
  {
    var t := s.(procs := s.procs[p := proc]);
    forall slot ensures GoodList(t, out, slot) {
      assert GoodList(s, out, slot) && t.Q(slot) == s.Q(slot);
    }
    forall x | x in t.procs && x !in out ensures AtHome(t, x) {
      assert AtHome(s, x) && t.Q(Home(t, x)) == s.Q(Home(s, x));
    }
  }

  // ---------- every operation keeps the scheduler steady ----------

  // The processor is about to be released: a running process that may go on is
  // in no list, and every other process is at home.
  ghost predicate Switchable(s: Sched) {
    && Base(s) && Idle(s)
    && (if MayContinue(s)
        then s.procs[s.running.value].priority < LEVELS && Queued(s, {MAIN_PID, s.running.value})
        else Queued(s, {MAIN_PID}))
  }

  predicate MayContinue(s: Sched) {
    && s.running.Some? && s.running.value != MAIN_PID
    && s.running.value in s.procs && s.procs[s.running.value].state == Ready
  }

  lemma SameQueued(s: Sched, t: Sched, out: set<Pid>)
    requires Queued(s, out) && t.procs == s.procs && t.queues == s.queues
    ensures Queued(t, out)
  {
    forall slot ensures GoodList(t, out, slot) {
      assert GoodList(s, out, slot) && t.Q(slot) == s.Q(slot);
    }
    forall p | p in t.procs && p !in out ensures AtHome(t, p) {
      assert AtHome(s, p) && t.Q(Home(t, p)) == s.Q(Home(s, p));
    }
  }

  // While the null process is not running, some process is ready.
  lemma IdleReady(s: Sched)
    requires Idle(s) && Queued(s, {MAIN_PID})
    ensures First(s, ReadyQ) < LEVELS
  {
    assert AtHome(s, NULL_PID) && Home(s, NULL_PID) == Slot(ReadyQ, NULL_PRIORITY);
  }

  lemma DispatchSteady(s: Sched)
    requires Base(s) && Idle(s) && Queued(s, {MAIN_PID})
    ensures Steady(Dispatch(s)) && SameWaits(s, Dispatch(s))
    ensures Dispatch(s).running == Some(s.Q(Slot(ReadyQ, First(s, ReadyQ)))[0])
  {
    hide Queued;
    IdleReady(s);
    PopShape(s, {MAIN_PID}, ReadyQ);
    var (t, p) := Pop(s, ReadyQ);
    var u := t.(running := Some(p));
    SameQueued(t, u, {MAIN_PID} + {p});
    assert {MAIN_PID} + {p} == {MAIN_PID, p};
    ChangeShape(u, {MAIN_PID, p}, p, u.procs[p].(state := Ready));
    assert Outside(Dispatch(s)) == {MAIN_PID, p};
  }

  lemma SwitchSteady(s: Sched)
    requires Switchable(s)
    ensures Steady(Switch(s)) && SameWaits(s, Switch(s))
  {
    if MayContinue(s) {
      var r := s.running.value;
      EnqueueShape(s, {MAIN_PID, r}, r);
      assert {MAIN_PID, r} - {r} == {MAIN_PID};
      DispatchSteady(Enqueue(s, ReadyQ, r));
    } else {
      DispatchSteady(s);
    }
  }

  lemma SteadySwitchable(s: Sched)
    requires Shape(s) && Idle(s) && (s.running.Some? && s.running.value != MAIN_PID ==> MayContinue(s))
    ensures Switchable(s)
  {
    if MayContinue(s) {
      assert Outside(s) == {MAIN_PID, s.running.value};
    } else {
      assert Outside(s) == {MAIN_PID};
    }
  }

  lemma BlockSteady(s: Sched, kind: Kind)
    requires Steady(s) && s.running.value != NULL_PID && kind != ReadyQ
    ensures Steady(BlockRunning(s, kind))
    ensures SameWaits(SetState(s, s.running.value, Blocking(kind)), BlockRunning(s, kind))
  {
    hide Queued, NoneBefore;
    var r := s.running.value;
    var t := SetState(s, r, Blocking(kind));
    ChangeShape(s, Outside(s), r, s.procs[r].(state := Blocking(kind)));
    EnqueueShape(t, Outside(s), r);
    assert Outside(s) - {r} == {MAIN_PID};
    SwitchSteady(Enqueue(t, kind, r));
  }

  // Blocking any process but the null process, running or not.
  lemma BlockPidSteady(s: Sched, pid: Pid, kind: Kind)
    requires Steady(s) && pid != NULL_PID && kind != ReadyQ
    ensures Steady(BlockPid(s, pid, kind))
    ensures Found(s, pid) && !IsBlocked(s.procs[pid].state) ==>
      SameWaits(SetState(s, pid, Blocking(kind)), BlockPid(s, pid, kind))
    ensures !Found(s, pid) || IsBlocked(s.procs[pid].state) ==> BlockPid(s, pid, kind) == s
  {
    hide Queued, Switch, SameWaits;
    if s.running == Some(pid) {
      BlockSteady(s, kind);
    } else if Found(s, pid) && !IsBlocked(s.procs[pid].state) {
      BlockOther(s, pid, kind);
    }
  }

  lemma BlockOther(s: Sched, pid: Pid, kind: Kind)
    requires Steady(s) && pid != NULL_PID && kind != ReadyQ
    requires s.running != Some(pid) && Found(s, pid) && !IsBlocked(s.procs[pid].state)
    ensures Steady(BlockPid(s, pid, kind))
    ensures SameWaits(SetState(s, pid, Blocking(kind)), BlockPid(s, pid, kind))
  {
    hide Queued;
    var out := Outside(s);
    RemoveShape(s, out, pid);
    var t := Remove(s, pid);
    var u := SetState(t, pid, Blocking(kind));
    ChangeShape(t, out + {pid}, pid, t.procs[pid].(state := Blocking(kind)));
    EnqueueShape(u, out + {pid}, pid);
    assert out + {pid} - {pid} == out;
    var v := BlockPid(s, pid, kind);
    assert Outside(v) == out;
    forall i | 0 <= i < s.procs[s.running.value].priority ensures v.Q(Slot(ReadyQ, i)) == [] {
      assert v.Q(Slot(ReadyQ, i)) == u.Q(Slot(ReadyQ, i)) == t.Q(Slot(ReadyQ, i));
      assert s.Q(Slot(ReadyQ, i)) == [];
    }
  }

  lemma WakeShape(s: Sched, pid: Pid)
    requires Shape(s) && Idle(s) && (s.running.Some? ==> !IsBlocked(s.procs[s.running.value].state))
    ensures Shape(Wake(s, pid)) && Idle(Wake(s, pid)) && Wake(s, pid).running == s.running
    ensures Wake(s, pid).procs == if CanWake(s, pid) then SetState(s, pid, Ready).procs else s.procs
  {
    hide Queued, NoneBefore;
    if CanWake(s, pid) {
      var out := Outside(s);
      RemoveShape(s, out, pid);
      var t := Remove(s, pid);
      ChangeShape(t, out + {pid}, pid, t.procs[pid].(state := Ready));
      EnqueueShape(SetState(t, pid, Ready), out + {pid}, pid);
      assert out + {pid} - {pid} == out;
      assert Outside(Wake(s, pid)) == out;
    }
  }

  // Waking a process can only put it, and nobody else, above level m.
  lemma WakeLevels(s: Sched, pid: Pid, m: nat)
    requires Shape(s) && NoneBefore(s, m)
    ensures NoneBefore(Wake(s, pid), if CanWake(s, pid) && s.procs[pid].priority < m then s.procs[pid].priority else m)
  {
  }

  lemma UnblockPidSteady(s: Sched, pid: Pid)
    requires Steady(s)
    ensures Steady(UnblockPid(s, pid, true))
    ensures SameWaits(Wake(s, pid), UnblockPid(s, pid, true))
  {
    WakeShape(s, pid);
    WakeLevels(s, pid, s.procs[s.running.value].priority);
    var t := Wake(s, pid);
    if CanWake(s, pid) && Outranks(t, pid) {
      SteadySwitchable(t);
      SwitchSteady(t);
    }
  }

  lemma UnblockTypeSteady(s: Sched, kind: Kind)
    requires Steady(s) && kind != ReadyQ
    ensures Steady(UnblockType(s, kind))
    ensures First(s, kind) == LEVELS ==> UnblockType(s, kind) == s
    ensures First(s, kind) < LEVELS ==>
      var p := Pop(s, kind).1;
      && p in s.procs && s.procs[p].state == Blocking(kind)
      && SameWaits(SetState(s, p, Ready), UnblockType(s, kind))
  {
    hide Queued, Switch;
    if First(s, kind) < LEVELS {
      var out := Outside(s);
      PopShape(s, out, kind);
      var (t, p) := Pop(s, kind);
      ChangeShape(t, out + {p}, p, t.procs[p].(state := Ready));
      var u := SetState(t, p, Ready);
      EnqueueShape(u, out + {p}, p);
      assert out + {p} - {p} == out;
      var v := Enqueue(u, ReadyQ, p);
      assert Outside(v) == out;
      if Outranks(v, p) {
        SteadySwitchable(v);
        SwitchSteady(v);
      }
    }
  }

  lemma RequeueShape(s: Sched, pid: Pid, priority: nat)
    requires Steady(s) && pid in s.procs && pid !in Outside(s) && pid != NULL_PID && priority < NULL_PRIORITY
    ensures var t := Requeue(s, pid, priority);
      Shape(t) && Idle(t) && t.running == s.running && t.procs == SetLevel(s, pid, priority).procs
    ensures var t := Requeue(s, pid, priority);
      (Outranks(t, pid) && KindOf(t.procs[pid].state) == ReadyQ)
      || NoneBefore(t, t.procs[t.running.value].priority)
  {
    var out := Outside(s);
    RemoveShape(s, out, pid);
    var t := Remove(s, pid);
    ChangeShape(t, out + {pid}, pid, t.procs[pid].(priority := priority));
    EnqueueShape(SetLevel(t, pid, priority), out + {pid}, pid);
    assert out + {pid} - {pid} == out;
    assert Outside(Requeue(s, pid, priority)) == out;
  }

  lemma SetPrioritySteady(s: Sched, pid: int, priority: int)
    requires Steady(s)
    ensures Steady(SetPriority(s, pid, priority).0)
    ensures SetPriority(s, pid, priority).1 != 0 ==> SetPriority(s, pid, priority).0 == s
    ensures SetPriority(s, pid, priority).1 == 0 ==>
      && pid > 0 && pid in s.procs && 0 <= priority <= 3
      && SameWaits(SetLevel(s, pid, priority), SetPriority(s, pid, priority).0)
  {
    hide Queued, Switch, Requeue;
    if SetPriority(s, pid, priority).1 == 0 && s.procs[pid].priority != priority {
      if s.running != Some(pid) {
        RequeueShape(s, pid, priority);
        var t := Requeue(s, pid, priority);
        if Outranks(t, pid) && KindOf(t.procs[pid].state) == ReadyQ {
          SteadySwitchable(t);
          SwitchSteady(t);
        }
      } else {
        ChangeShape(s, Outside(s), pid, s.procs[pid].(priority := priority));
        var t := SetLevel(s, pid, priority);
        assert Outside(t) == Outside(s);
        if priority > s.procs[pid].priority {
          SteadySwitchable(t);
          SwitchSteady(t);
        }
      }
    }
  }

  lemma YieldSteady(s: Sched)
    requires Steady(s)
    ensures Steady(Switch(s)) && SameWaits(s, Switch(s))
  {
    SteadySwitchable(s);
    SwitchSteady(s);
  }

  lemma TerminateSteady(s: Sched)
    requires Steady(s) && s.running.value != NULL_PID
    ensures Steady(Terminate(s))
    ensures SameWaits(s.(procs := s.procs - {s.running.value}), Terminate(s))
  {
    var r := s.running.value;
    var t := s.(running := None, procs := s.procs - {r});
    forall slot ensures GoodList(t, {MAIN_PID}, slot) {
      assert GoodList(s, Outside(s), slot) && t.Q(slot) == s.Q(slot);
    }
    forall x | x in t.procs && x !in {MAIN_PID} ensures AtHome(t, x) {
      assert AtHome(s, x) && t.Q(Home(t, x)) == s.Q(Home(s, x));
    }
    SwitchSteady(t);
  }

  // What a series of wake-ups does to the process table and to the best level.
  lemma {:induction false} WakeAllShape(s: Sched, pids: seq<Pid>)
    requires Steady(s)
    ensures var t := WakeAll(s, pids);
      && Shape(t) && Idle(t) && t.running == s.running && t.procs.Keys == s.procs.Keys
      && t.procs[s.running.value] == s.procs[s.running.value]
      && (forall p | p in s.procs :: t.procs[p] ==
            if p in pids && CanWake(s, p) then s.procs[p].(state := Ready) else s.procs[p])
    ensures BestWoken(s, pids) <= NULL_PRIORITY
    ensures NoneBefore(WakeAll(s, pids), BestWoken(s, pids))
         || NoneBefore(WakeAll(s, pids), s.procs[s.running.value].priority)
  {
    hide Queued;
    if pids != [] {
      var front, p := pids[..|pids| - 1], pids[|pids| - 1];
      WakeAllShape(s, front);
      var t := WakeAll(s, front);
      WakeShape(t, p);
      WakeLevels(t, p, if NoneBefore(t, BestWoken(s, front)) then BestWoken(s, front)
                       else s.procs[s.running.value].priority);
      assert pids == front + [p];
    }
  }

  lemma WakeManySteady(s: Sched, pids: seq<Pid>)
    requires Steady(s)
    ensures Steady(WakeMany(s, pids))
    ensures SameWaits(WakeAll(s, pids), WakeMany(s, pids))
  {
    hide Queued, Switch, WakeAll, BestWoken;
    WakeAllShape(s, pids);
    var t := WakeAll(s, pids);
    if BestWoken(s, pids) < t.procs[t.running.value].priority {
      SteadySwitchable(t);
      SwitchSteady(t);
    }
  }
}
