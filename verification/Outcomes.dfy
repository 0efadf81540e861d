// What the scheduler does in each step of a run, in terms of the state before it: who
// runs, who sleeps, and every list.
module Outcomes {
  import opened Rtx
  import opened Seqs
  import opened SchedSpec
  import opened SchedLaws

  // ---------- the words of the laws ----------

  // The longest-queued process of the best non-empty level of a family.
  ghost predicate BestHead(s: Sched, kind: Kind, p: Pid) {
    exists l: nat ::
      && l < LEVELS && s.Q(Slot(kind, l)) != [] && s.Q(Slot(kind, l))[0] == p
      && forall i | 0 <= i < l :: s.Q(Slot(kind, i)) == []
  }

  // The process runs, or stands in one of the fifteen lists.
  ghost predicate Live(s: Sched, p: Pid) {
    s.running == Some(p) || exists kind: Kind, l: nat :: l < LEVELS && p in s.Q(Slot(kind, l))
  }

  predicate Asleep(s: Sched, p: Pid) {
    p in s.procs && (s.procs[p].state == BlockedMem || s.procs[p].state == BlockedMsg)
  }

  // Whoever runs is in state ready.
  function Ran(procs: map<Pid, Proc>, p: Pid): map<Pid, Proc> {
    if p in procs then procs[p := procs[p].(state := Ready)] else procs
  }

  function Level(s: Sched, p: Pid): nat {
    if p in s.procs then s.procs[p].priority else 0
  }

  ghost predicate SameSched(s: Sched, t: Sched) {
    t.procs == s.procs && t.running == s.running && forall slot :: t.Q(slot) == s.Q(slot)
  }

  // The running process r has gone to sleep in state st, last at its level, and the
  // longest-ready process of the best level runs.
  ghost predicate FellAsleep(s: Sched, t: Sched, r: Pid, st: State, kind: Kind) {
    exists n | BestHead(s, ReadyQ, n) ::
      && n != r && r in s.procs && n in s.procs && t.running == Some(n)
      && t.procs == Ran(s.procs[r := Proc(st, s.procs[r].priority)], n)
      && forall slot :: t.Q(slot) ==
           if slot == Slot(kind, s.procs[r].priority) then s.Q(slot) + [r]
           else if slot == Slot(ReadyQ, s.procs[n].priority) && s.Q(slot) != [] then s.Q(slot)[1..]
           else s.Q(slot)
  }

  // The sleeping process p is ready. If it outranks the running process r it runs and r
  // is the last of its ready list; if not, r goes on and p is the last of its own.
  ghost predicate Awoke(s: Sched, t: Sched, r: Pid, p: Pid) {
    && p in s.procs && r in s.procs && p in s.Q(Home(s, p))
    && t.procs == s.procs[p := s.procs[p].(state := Ready)]
    && var runs := s.procs[p].priority < s.procs[r].priority;
       var waits := if runs then r else p;
       && t.running == Some(if runs then p else r)
       && forall slot :: t.Q(slot) ==
            if slot == Home(s, p) then Drop(s.Q(slot), IndexOf(s.Q(slot), p))
            else if slot == Slot(ReadyQ, s.procs[waits].priority) then s.Q(slot) + [waits]
            else s.Q(slot)
  }

  // ---------- the processor changes hands ----------

  lemma BestIs(s: Sched, kind: Kind)
    requires First(s, kind) < LEVELS
    ensures BestHead(s, kind, Pop(s, kind).1)
    ensures forall p | BestHead(s, kind, p) :: p == Pop(s, kind).1
  {
    var l := First(s, kind);
    assert s.Q(Slot(kind, l))[0] == Pop(s, kind).1;
    forall p | BestHead(s, kind, p) ensures p == Pop(s, kind).1 {
      var i: nat :| i < LEVELS && s.Q(Slot(kind, i)) != [] && s.Q(Slot(kind, i))[0] == p
                    && forall j | 0 <= j < i :: s.Q(Slot(kind, j)) == [];
      assert i == l;
    }
  }

  lemma DispatchLaw(s: Sched)
    requires First(s, ReadyQ) < LEVELS && Pop(s, ReadyQ).1 in s.procs
    requires KindOf(s.procs[Pop(s, ReadyQ).1].state) == ReadyQ
    ensures var n, t := Pop(s, ReadyQ).1, Dispatch(s);
      && t.running == Some(n) && t.procs == Ran(s.procs, n)
      && forall slot :: t.Q(slot) == if slot == Slot(ReadyQ, First(s, ReadyQ)) then s.Q(slot)[1..] else s.Q(slot)
  {
    var n, t := Pop(s, ReadyQ).1, Dispatch(s);
    assert s.procs[n].state == Ready ==> s.procs[n := s.procs[n].(state := Ready)] == s.procs;
    assert forall slot :: t.Q(slot) == Pop(s, ReadyQ).0.Q(slot);
  }

  // The head of the best list above the running process takes over.
  lemma PreemptLaw(m: Sched, n: Pid)
    requires MayContinue(m) && n in m.procs && KindOf(m.procs[n].state) == ReadyQ && m.procs[n].priority < LEVELS
    requires m.procs[n].priority < m.procs[m.running.value].priority
    requires m.Q(Slot(ReadyQ, m.procs[n].priority)) != [] && m.Q(Slot(ReadyQ, m.procs[n].priority))[0] == n
    requires NoneBefore(m, m.procs[n].priority)
    ensures var t, r := Switch(m), m.running.value;
      && t.running == Some(n) && t.procs == Ran(m.procs, n)
      && (m.procs[n].state == Ready ==> t.procs == m.procs)
      && forall slot :: t.Q(slot) ==
           if slot == Slot(ReadyQ, m.procs[n].priority) then m.Q(slot)[1..]
           else if slot == Slot(ReadyQ, m.procs[r].priority) then m.Q(slot) + [r]
           else m.Q(slot)
  {
    var r, l := m.running.value, m.procs[n].priority;
    var u := Enqueue(m, ReadyQ, r);
    assert forall i: nat | i <= l :: u.Q(Slot(ReadyQ, i)) == m.Q(Slot(ReadyQ, i));
    assert First(u, ReadyQ) == l;
    DispatchLaw(u);
    assert m.procs[n].state == Ready ==> m.procs[n := m.procs[n].(state := Ready)] == m.procs;
  }

  lemma RunnerIs(s: Sched)
    requires Steady(s)
    ensures MayContinue(s) && s.running.value in s.procs && s.procs[s.running.value].priority < LEVELS
    ensures forall slot :: s.running.value !in s.Q(slot)
    ensures forall i | 0 <= i < s.procs[s.running.value].priority :: s.Q(Slot(ReadyQ, i)) == []
  {
    forall slot ensures s.running.value !in s.Q(slot) {
      RunnerIsUnlisted(s, slot);
    }
  }

  lemma HeadIsReady(s: Sched)
    requires Shape(s) && First(s, ReadyQ) < LEVELS
    ensures var n := Pop(s, ReadyQ).1;
      n in s.procs && KindOf(s.procs[n].state) == ReadyQ && s.procs[n].priority == First(s, ReadyQ) && n !in Outside(s)
  {
    PopShape(s, Outside(s), ReadyQ);
  }

  lemma BlockLaw(s: Sched, kind: Kind)
    requires Steady(s) && s.running.value != NULL_PID && kind != ReadyQ
    ensures FellAsleep(s, BlockRunning(s, kind), s.running.value, Blocking(kind), kind)
  {
    hide Queued, FirstFrom;
    BlockRunsNext(s, kind);
    RunnerIs(s);
    HeadIsReady(s);
    BestIs(s, ReadyQ);
    var r, n := s.running.value, Pop(s, ReadyQ).1;
    var m := SetState(s, r, Blocking(kind));
    var t := Enqueue(m, kind, r);
    assert forall slot :: m.Q(slot) == s.Q(slot);
    SameFirst(s, t);
    DispatchLaw(t);
    assert BlockRunning(s, kind) == Dispatch(t);
  }

  // Another process that is not asleep: it leaves its ready list for the end of the
  // list of sleepers of its level, and the running process goes on.
  lemma BlockOtherLaw(s: Sched, pid: Pid, kind: Kind)
    requires Steady(s) && kind != ReadyQ && s.running != Some(pid)
    requires pid in s.procs && pid != MAIN_PID && !Asleep(s, pid)
    ensures var t, l := BlockPid(s, pid, kind), s.procs[pid].priority;
      && t.running == s.running
      && t.procs == s.procs[pid := Proc(if kind == MemQ then BlockedMem else BlockedMsg, l)]
      && pid in s.Q(Slot(ReadyQ, l))
      && forall slot :: t.Q(slot) == Without<Pid>(s.Q(slot), pid) + if slot == Slot(kind, l) then [pid] else []
  {
    hide Queued, Switch, NoneBefore;
    RunnerIs(s);
    RemoveFinds(s, pid);
    OnlyHome(s, pid);
  }

  // The running process r is gone, and the longest-ready process of the best level runs.
  ghost predicate Exited(s: Sched, t: Sched, r: Pid) {
    exists n | BestHead(s, ReadyQ, n) ::
      && n in s.procs && n != r && t.running == Some(n) && t.procs == Ran(s.procs - {r}, n)
      && (forall slot :: r !in t.Q(slot))
      && forall slot :: t.Q(slot) ==
           if slot == Slot(ReadyQ, s.procs[n].priority) && s.Q(slot) != [] then s.Q(slot)[1..] else s.Q(slot)
  }

  lemma ExitLawOn(s: Sched)
    requires Steady(s) && s.running.value != NULL_PID
    ensures Exited(s, Terminate(s), s.running.value)
  {
    hide Queued, FirstFrom;
    ExitRunsNext(s);
    RunnerIs(s);
    HeadIsReady(s);
    BestIs(s, ReadyQ);
    var t := s.(running := None, procs := s.procs - {s.running.value});
    assert forall slot :: t.Q(slot) == s.Q(slot);
    SameFirst(s, t);
    DispatchLaw(t);
  }

  lemma WakeLaw(s: Sched, pid: Pid)
    requires Steady(s) && Asleep(s, pid)
    ensures Awoke(s, UnblockPid(s, pid, true), s.running.value, pid)
  {
    hide Queued, Switch, FirstFrom;
    SleeperFacts(s, pid);
    RunnerIs(s);
    WokenGoesLast(s, pid);
    var m := Wake(s, pid);
    if s.procs[pid].priority < s.procs[s.running.value].priority {
      PreemptLaw(m, pid);
    }
  }

  lemma SleeperFacts(s: Sched, pid: Pid)
    requires Steady(s) && Asleep(s, pid)
    ensures CanWake(s, pid) && pid !in Outside(s) && s.procs[pid].priority < LEVELS && pid in s.Q(Home(s, pid))
  {
    assert AtHome(s, pid);
  }

  lemma ReleaseLawOn(s: Sched)
    requires Steady(s)
    ensures (forall p | p in s.procs :: s.procs[p].state != BlockedMem) ==> UnblockType(s, MemQ) == s
    ensures forall p | BestHead(s, MemQ, p) :: Awoke(s, UnblockType(s, MemQ), s.running.value, p)
    ensures (exists p :: p in s.procs && s.procs[p].state == BlockedMem) ==> exists p :: BestHead(s, MemQ, p)
  {
    hide Queued, Switch;
    if First(s, MemQ) < LEVELS {
      BestIs(s, MemQ);
      PopShape(s, Outside(s), MemQ);
      PopLaw(s);
    } else {
      NobodySleeps(s);
    }
  }

  lemma NobodySleeps(s: Sched)
    requires Steady(s) && First(s, MemQ) == LEVELS
    ensures forall p | p in s.procs :: s.procs[p].state != BlockedMem
    ensures forall p :: !BestHead(s, MemQ, p)
  {
    forall p | p in s.procs ensures s.procs[p].state != BlockedMem {
      if s.procs[p].state == BlockedMem {
        SleeperFacts(s, p);
      }
    }
  }

  lemma PopLaw(s: Sched)
    requires Steady(s) && First(s, MemQ) < LEVELS
    ensures Awoke(s, UnblockType(s, MemQ), s.running.value, Pop(s, MemQ).1)
    ensures s.procs[Pop(s, MemQ).1].state == BlockedMem
  {
    hide Queued, Switch, FirstFrom;
    RunnerIs(s);
    PopShape(s, Outside(s), MemQ);
    var (t, p) := Pop(s, MemQ);
    var from, to := Slot(MemQ, First(s, MemQ)), Slot(ReadyQ, First(s, MemQ));
    assert s.Q(from)[0] == p && IndexOf(s.Q(from), p) == 0 && Drop(s.Q(from), 0) == s.Q(from)[1..];
    var m := Enqueue(SetState(t, p, Ready), ReadyQ, p);
    forall slot ensures m.Q(slot) ==
      if slot == from then s.Q(slot)[1..] else if slot == to then s.Q(slot) + [p] else s.Q(slot)
    {
      assert SetState(t, p, Ready).Q(slot) == t.Q(slot);
    }
    if s.procs[p].priority < s.procs[s.running.value].priority {
      PreemptLaw(m, p);
    }
  }

  // ---------- yield and set-priority ----------

  // The running process of m goes to the end of its list, and the head of the best list
  // runs, which may be the same process.
  lemma SwitchLaw(m: Sched)
    requires MayContinue(m) && m.procs[m.running.value].priority < LEVELS
    requires forall slot, p | p in m.Q(slot) && slot.kind == ReadyQ ::
               p in m.procs && KindOf(m.procs[p].state) == ReadyQ
    ensures var r := m.running.value; var l := m.procs[r].priority;
      if NoneBefore(m, l + 1) then SameSched(m, Switch(m))
      else First(m, ReadyQ) <= l && var n := Pop(m, ReadyQ).1;
        && Switch(m).running == Some(n) && Switch(m).procs == Ran(m.procs, n)
        && forall slot :: Switch(m).Q(slot) ==
             (if slot == Slot(ReadyQ, First(m, ReadyQ)) then m.Q(slot)[1..] else m.Q(slot))
             + (if slot == Slot(ReadyQ, l) then [r] else [])
  {
    hide FirstFrom;
    var r := m.running.value;
    var l := m.procs[r].priority;
    var u := Enqueue(m, ReadyQ, r);
    assert u.Q(Slot(ReadyQ, l)) == m.Q(Slot(ReadyQ, l)) + [r];
    assert forall slot | slot != Slot(ReadyQ, l) :: u.Q(slot) == m.Q(slot);
    assert First(u, ReadyQ) <= l;
    if NoneBefore(m, l + 1) {
      assert First(u, ReadyQ) == l && m.Q(Slot(ReadyQ, l)) == [];
      assert u.Q(Slot(ReadyQ, l)) == [r];
      DispatchLaw(u);
      assert m.procs[r := m.procs[r].(state := Ready)] == m.procs;
    } else {
      SameBest(m, u, l);
      assert m.Q(Slot(ReadyQ, First(m, ReadyQ)))[0] in m.Q(Slot(ReadyQ, First(m, ReadyQ)));
      DispatchLaw(u);
    }
  }

  lemma SameBest(m: Sched, u: Sched, l: nat)
    requires l < LEVELS && !NoneBefore(m, l + 1) && m.Q(Slot(ReadyQ, l)) <= u.Q(Slot(ReadyQ, l))
    requires forall i: nat | i != l :: u.Q(Slot(ReadyQ, i)) == m.Q(Slot(ReadyQ, i))
    ensures First(m, ReadyQ) == First(u, ReadyQ) <= l && Pop(u, ReadyQ).1 == Pop(m, ReadyQ).1
  {
    var i, j := First(m, ReadyQ), First(u, ReadyQ);
    assert i <= l;
    assert u.Q(Slot(ReadyQ, i)) != [];
  }

  lemma ReadyMembers(s: Sched)
    requires Shape(s)
    ensures forall slot, p | p in s.Q(slot) && slot.kind == ReadyQ ::
              p in s.procs && KindOf(s.procs[p].state) == ReadyQ
  {
    forall slot, p | p in s.Q(slot) && slot.kind == ReadyQ
      ensures p in s.procs && KindOf(s.procs[p].state) == ReadyQ
    {
      assert GoodList(s, Outside(s), slot);
    }
  }

  // The ready list q of the running process: its head runs and r joins it last.
  ghost predicate Yielded(s: Sched, t: Sched, r: Pid) {
    r in s.procs && var level := Slot(ReadyQ, s.procs[r].priority);
    if s.Q(level) == [] then SameSched(s, t)
    else
      && t.running == Some(s.Q(level)[0]) && t.procs == Ran(s.procs, s.Q(level)[0])
      && forall slot :: t.Q(slot) == if slot == level then s.Q(slot)[1..] + [r] else s.Q(slot)
  }

  lemma YieldLawOn(s: Sched)
    requires Steady(s)
    ensures Yielded(s, Switch(s), s.running.value)
  {
    hide Queued, Switch, FirstFrom;
    RunnerIs(s);
    ReadyMembers(s);
    SwitchLaw(s);
    var l := s.procs[s.running.value].priority;
    if s.Q(Slot(ReadyQ, l)) != [] {
      assert First(s, ReadyQ) == l;
    }
  }

  // Process pid has got another priority: it changed lists, or the running process gave
  // way because of it.
  ghost predicate Relevelled(s: Sched, t: Sched, r: Pid, pid: Pid, priority: nat) {
    && pid in s.procs && r in s.procs
    && var procs := s.procs[pid := Proc(s.procs[pid].state, priority)];
       var kind := KindOf(s.procs[pid].state);
       if pid != r then
         var runs := kind == ReadyQ && priority < s.procs[r].priority;
         var joins := if runs then Slot(ReadyQ, s.procs[r].priority) else Slot(kind, priority);
         && t.running == Some(if runs then pid else r)
         && t.procs == (if runs then Ran(procs, pid) else procs)
         && forall slot :: t.Q(slot) ==
              Without<Pid>(s.Q(slot), pid) + (if slot == joins then [if runs then r else pid] else [])
       else if priority < s.procs[r].priority || NoneBefore(s, priority + 1) then
         t.running == Some(r) && t.procs == procs && forall slot :: t.Q(slot) == s.Q(slot)
       else
         exists n | BestHead(s, ReadyQ, n) ::
           && n != r && t.running == Some(n) && t.procs == Ran(procs, n)
           && forall slot :: t.Q(slot) == Without<Pid>(s.Q(slot), n) + (if slot == Slot(ReadyQ, priority) then [r] else [])
  }

  lemma SetLawOn(s: Sched, pid: int, priority: int)
    requires Steady(s)
    ensures var (t, code) := SetPriority(s, pid, priority);
      && code == (if pid <= 0 then 2 else if priority < 0 || priority > 3 then 3 else if !Live(s, pid) then 4 else 0)
      && (code != 0 || Level(s, pid) == priority ==> t == s)
      && (code == 0 && Level(s, pid) != priority ==> Relevelled(s, t, s.running.value, pid, priority))
  {
    hide Queued, Switch, Requeue;
    SetPrioritySteady(s, pid, priority);
    if pid > 0 {
      LiveIs(s, pid);
    }
    if SetPriority(s, pid, priority).1 == 0 && Level(s, pid) != priority {
      if s.running == Some(pid) {
        LowerLaw(s, priority);
      } else {
        MoveLaw(s, pid, priority);
      }
    }
  }

  lemma LiveIs(s: Sched, pid: Pid)
    requires Steady(s)
    ensures Live(s, pid) <==> Found(s, pid)
    ensures Live(s, pid) <==> pid in s.procs && pid != MAIN_PID
  {
    hide Queued;
    ScanAgrees(s, pid);
    if Found(s, pid) && s.running != Some(pid) {
      RemoveFinds(s, pid);
      LevelsAreFive(s, pid);
    }
    forall kind, l: nat | l < LEVELS && pid in s.Q(Slot(kind, l)) ensures Found(s, pid) {
      assert Slot(kind, l).level < LEVELS;
    }
  }

  lemma LevelsAreFive(s: Sched, pid: Pid)
    requires Shape(s) && pid in s.procs && pid !in Outside(s)
    ensures s.procs[pid].priority < LEVELS
  {
    assert AtHome(s, pid);
  }

  // A process that is not running.
  lemma MoveLaw(s: Sched, pid: Pid, priority: nat)
    requires Steady(s) && SetPriority(s, pid, priority).1 == 0 && s.running != Some(pid)
    requires Level(s, pid) != priority
    ensures Relevelled(s, SetPriority(s, pid, priority).0, s.running.value, pid, priority)
  {
    hide Queued, Switch, Requeue, Relevelled, NoneBefore;
    SetPrioritySteady(s, pid, priority);
    RequeueShape(s, pid, priority);
    if KindOf(s.procs[pid].state) == ReadyQ && priority < s.procs[s.running.value].priority {
      MoveRuns(s, pid, priority);
    } else {
      MoveWaits(s, pid, priority);
    }
  }

  // The lists after a process that is not running has changed level.
  lemma Moved(s: Sched, pid: Pid, priority: nat)
    requires Steady(s) && pid in s.procs && pid !in Outside(s) && priority != s.procs[pid].priority
    ensures var m, kind := Requeue(s, pid, priority), KindOf(s.procs[pid].state);
      && m.running == s.running && m.procs == s.procs[pid := Proc(s.procs[pid].state, priority)]
      && forall slot :: m.Q(slot) == Without<Pid>(s.Q(slot), pid) + if slot == Slot(kind, priority) then [pid] else []
  {
    hide Queued, NoneBefore, Requeue;
    MovedGoesLast(s, pid, priority);
    OnlyHome(s, pid);
  }

  lemma MoveWaits(s: Sched, pid: Pid, priority: nat)
    requires Steady(s) && pid in s.procs && pid !in Outside(s) && priority != s.procs[pid].priority
    requires KindOf(s.procs[pid].state) != ReadyQ || priority >= s.procs[s.running.value].priority
    ensures Relevelled(s, Requeue(s, pid, priority), s.running.value, pid, priority)
  {
    hide Queued, NoneBefore, Requeue, Without;
    RunnerIs(s);
    Moved(s, pid, priority);
  }

  // Moved above the running process it runs at once, for the first time perhaps.
  lemma MoveRuns(s: Sched, pid: Pid, priority: nat)
    requires Steady(s) && pid in s.procs && pid !in Outside(s) && priority != s.procs[pid].priority
    requires KindOf(s.procs[pid].state) == ReadyQ && priority < s.procs[s.running.value].priority
    ensures Relevelled(s, Switch(Requeue(s, pid, priority)), s.running.value, pid, priority)
  {
    hide Queued, Switch, Requeue, NoneBefore, Without;
    Moved(s, pid, priority);
    ReadyAbove(s, Requeue(s, pid, priority), pid, priority);
    var m := Requeue(s, pid, priority);
    assert m.Q(Slot(ReadyQ, priority)) == [pid] && [pid][1..] == [];
    PreemptLaw(m, pid);
  }

  // Above the running process no list holds anybody else.
  lemma ReadyAbove(s: Sched, m: Sched, pid: Pid, priority: nat)
    requires Steady(s) && priority < s.procs[s.running.value].priority && m.running == s.running
    requires pid in s.procs && pid !in Outside(s) && m.procs == s.procs[pid := Proc(s.procs[pid].state, priority)]
    requires KindOf(s.procs[pid].state) == ReadyQ
    requires forall slot ::
               m.Q(slot) == Without<Pid>(s.Q(slot), pid) + if slot == Slot(ReadyQ, priority) then [pid] else []
    ensures MayContinue(m) && priority < LEVELS && m.running.value != pid && NoneBefore(m, priority)
    ensures Without<Pid>(s.Q(Slot(ReadyQ, priority)), pid) == []
    ensures forall slot :: s.running.value !in s.Q(slot)
  {
    hide Queued;
    RunnerIs(s);
  }

  lemma OnlyHome(s: Sched, p: Pid)
    requires Shape(s) && p in s.procs
    ensures forall slot | slot != Home(s, p) || p in Outside(s) :: Without<Pid>(s.Q(slot), p) == s.Q(slot)
  {
    forall slot | slot != Home(s, p) || p in Outside(s) ensures p !in s.Q(slot) {
      assert GoodList(s, Outside(s), slot);
    }
  }

  // The running process itself.
  lemma LowerLaw(s: Sched, priority: nat)
    requires Steady(s) && SetPriority(s, s.running.value, priority).1 == 0
    requires Level(s, s.running.value) != priority
    ensures Relevelled(s, SetPriority(s, s.running.value, priority).0, s.running.value, s.running.value, priority)
  {
    hide Queued, Switch, FirstFrom;
    RunnerIs(s);
    var r := s.running.value;
    var m := SetLevel(s, r, priority);
    assert forall slot :: m.Q(slot) == s.Q(slot);
    if priority > s.procs[r].priority {
      ReadyMembers(s);
      SwitchLaw(m);
      SameFirst(s, m);
      if !NoneBefore(s, priority + 1) {
        BestIs(s, ReadyQ);
        HeadIsReady(s);
        OnlyHome(s, Pop(s, ReadyQ).1);
        var q := s.Q(Slot(ReadyQ, First(s, ReadyQ)));
        assert IndexOf(q, q[0]) == 0 && Drop(q, 0) == q[1..];
      }
    }
  }

  // ---------- the wake-ups of a tick ----------

  function NotIn(pids: seq<Pid>): Pid -> bool {
    (p: Pid) => p !in pids
  }

  // The sleepers of level l among pids, each once, in order.
  function Newcomers(s: Sched, pids: seq<Pid>, l: nat): seq<Pid> {
    if pids == [] then [] else
      var front, p := pids[..|pids| - 1], pids[|pids| - 1];
      Newcomers(s, front, l) + if Asleep(s, p) && s.procs[p].priority == l && p !in front then [p] else []
  }

  // Position i holds the first of the most urgent sleepers among pids.
  ghost predicate FirstUp(s: Sched, pids: seq<Pid>, i: nat) {
    && i < |pids| && Asleep(s, pids[i])
    && (forall j | 0 <= j < |pids| && Asleep(s, pids[j]) :: s.procs[pids[i]].priority <= s.procs[pids[j]].priority)
    && (forall j | 0 <= j < i && Asleep(s, pids[j]) :: s.procs[pids[i]].priority < s.procs[pids[j]].priority)
  }

  predicate SomeUp(s: Sched, pids: seq<Pid>, r: Pid) {
    exists i :: 0 <= i < |pids| && Asleep(s, pids[i]) && s.procs[pids[i]].priority < Level(s, r)
  }

  // Exactly the sleepers among pids are ready, those of a level in order behind the
  // processes that were ready there.
  ghost predicate AllAwoke(s: Sched, t: Sched, pids: seq<Pid>) {
    && t.procs.Keys == s.procs.Keys
    && (forall p | p in s.procs :: t.procs[p] ==
          if Asleep(s, p) && p in pids then Proc(Ready, s.procs[p].priority) else s.procs[p])
    && ListsAwoke(s, t, pids)
  }

  ghost predicate ListsAwoke(s: Sched, t: Sched, pids: seq<Pid>) {
    && (forall slot: Slot | slot.kind == ReadyQ :: t.Q(slot) == s.Q(slot) + Newcomers(s, pids, slot.level))
    && (forall slot: Slot | slot.kind != ReadyQ :: t.Q(slot) == Filter(s.Q(slot), NotIn(pids)))
  }

  // A tick whose moved messages have the receivers pids. Without a sleeper above the
  // running process r, r goes on. With one, the first of the most urgent runs, and r is
  // the last of its ready list.
  ghost predicate Ticked(s: Sched, t: Sched, r: Pid, pids: seq<Pid>) {
    if !SomeUp(s, pids, r) then
      t.running == Some(r) && AllAwoke(s, t, pids)
    else
      exists m: Sched, i: nat | FirstUp(s, pids, i) && AllAwoke(s, m, pids) ::
        && t.running == Some(pids[i]) && t.procs == m.procs
        && forall slot :: t.Q(slot) ==
             if slot == Slot(ReadyQ, s.procs[pids[i]].priority) && m.Q(slot) != [] then m.Q(slot)[1..]
             else if slot == Slot(ReadyQ, Level(s, r)) then m.Q(slot) + [r]
             else m.Q(slot)
  }

  lemma {:induction false} FilterKeeps(q: seq<Pid>, f: Pid -> bool)
    requires forall x | x in q :: f(x)
    ensures Filter(q, f) == q
  {
    if q != [] {
      FilterKeeps(q[1..], f);
      assert q == [q[0]] + q[1..];
    }
  }

  lemma WithoutFilter(q: seq<Pid>, p: Pid)
    requires NoDup(q)
    ensures Without(q, p) == Filter(q, (x: Pid) => x != p)
  {
    hide Filter, IndexOf;
    var f := (x: Pid) => x != p;
    if p in q {
      var k := IndexOf(q, p);
      FilterDrop(q, k, f);
      FilterKeeps(Drop(q, k), f);
    } else {
      FilterKeeps(q, f);
    }
  }

  lemma FilterOneMore(q: seq<Pid>, front: seq<Pid>, p: Pid)
    requires NoDup(Filter(q, NotIn(front)))
    ensures Filter(q, NotIn(front + [p])) == Without(Filter(q, NotIn(front)), p)
  {
    var other := (x: Pid) => x != p;
    WithoutFilter(Filter(q, NotIn(front)), p);
    FilterFilter(q, NotIn(front), other);
    FilterAgree(q, Both(NotIn(front), other), NotIn(front + [p]));
  }

  lemma AwakeIs(s: Sched)
    requires Steady(s)
    ensures forall p :: CanWake(s, p) <==> Asleep(s, p)
    ensures !Asleep(s, s.running.value)
  {
  }

  lemma {:induction false} AllAwokeLaw(s: Sched, pids: seq<Pid>)
    requires Steady(s)
    ensures AllAwoke(s, WakeAll(s, pids), pids)
  {
    hide Queued, NoneBefore;
    AwakeIs(s);
    if pids == [] {
      forall slot ensures Filter(s.Q(slot), NotIn(pids)) == s.Q(slot) {
        FilterKeeps(s.Q(slot), NotIn(pids));
      }
    } else {
      var front, p := pids[..|pids| - 1], pids[|pids| - 1];
      AllAwokeLaw(s, front);
      WakeAllShape(s, pids);
      OneMoreAwoke(s, front, p);
      assert pids == front + [p];
    }
  }

  lemma OneMoreAwoke(s: Sched, front: seq<Pid>, p: Pid)
    requires Steady(s) && AllAwoke(s, WakeAll(s, front), front)
    ensures ListsAwoke(s, Wake(WakeAll(s, front), p), front + [p])
  {
    hide Queued, NoneBefore, Wake, WakeAll, Filter, CanWake;
    AwakeIs(s);
    var t := WakeAll(s, front);
    WakeAllShape(s, front);
    WakeOnce(s, front, p);
    assert (front + [p])[..|front|] == front;
    forall slot: Slot
      ensures slot.kind == ReadyQ ==> Wake(t, p).Q(slot) == s.Q(slot) + Newcomers(s, front + [p], slot.level)
      ensures slot.kind != ReadyQ ==> Wake(t, p).Q(slot) == Filter(s.Q(slot), NotIn(front + [p]))
    {
      WakeAt(t, p, slot);
      if slot.kind != ReadyQ {
        ListIsDistinct(t, slot);
        FilterOneMore(s.Q(slot), front, p);
      }
    }
  }

  lemma ListIsDistinct(t: Sched, slot: Slot)
    requires Shape(t)
    ensures NoDup(t.Q(slot))
  {
    assert GoodList(t, Outside(t), slot);
  }

  // One wake-up, list by list.
  lemma WakeAt(t: Sched, p: Pid, slot: Slot)
    requires Shape(t) && t.running.Some? && !IsBlocked(t.procs[t.running.value].state)
    ensures slot.kind == ReadyQ ==>
      Wake(t, p).Q(slot) == t.Q(slot) + if CanWake(t, p) && t.procs[p].priority == slot.level then [p] else []
    ensures slot.kind != ReadyQ ==> Wake(t, p).Q(slot) == Without<Pid>(t.Q(slot), p)
  {
    hide Queued, Wake;
    if CanWake(t, p) {
      RunnerSleepsNot(t, p);
      WokenGoesLast(t, p);
      OnlyHome(t, p);
    } else {
      StaysAsleep(t, p);
      if slot.kind != ReadyQ {
        AwakeElsewhere(t, p, slot);
      }
    }
  }

  lemma AwakeElsewhere(t: Sched, p: Pid, slot: Slot)
    requires Shape(t) && !CanWake(t, p) && slot.kind != ReadyQ
    ensures Without<Pid>(t.Q(slot), p) == t.Q(slot)
  {
    assert GoodList(t, Outside(t), slot);
  }

  lemma TickLawOn(s: Sched, pids: seq<Pid>)
    requires Steady(s)
    ensures Ticked(s, WakeMany(s, pids), s.running.value, pids)
    ensures (forall p | p in pids :: !Asleep(s, p)) ==> WakeMany(s, pids) == s
  {
    hide Queued, NoneBefore, Switch, WakeAll, WakeMany, AllAwoke, Asleep;
    AllAwokeLaw(s, pids);
    if SomeUp(s, pids, s.running.value) {
      UpRuns(s, pids);
    } else {
      NobodyUp(s, pids);
    }
    if forall p | p in pids :: !Asleep(s, p) {
      QuietTick(s, pids);
    }
  }

  lemma UpRuns(s: Sched, pids: seq<Pid>)
    requires Steady(s) && SomeUp(s, pids, s.running.value)
    ensures Ticked(s, WakeMany(s, pids), s.running.value, pids)
  {
    hide Queued, NoneBefore, WakeMany, Ticked;
    AwakeIs(s);
    TickPreempts(s, pids);
    var j :| 0 <= j < |pids| && Asleep(s, pids[j]) && s.procs[pids[j]].priority < Level(s, s.running.value);
    assert pids[j] in pids && Outranks(s, pids[j]);
    var i: nat :| FirstBest(s, pids, i) && WakeMany(s, pids).running == Some(pids[i]);
    HandsOver(s, pids, i);
  }

  lemma NobodyUp(s: Sched, pids: seq<Pid>)
    requires Steady(s) && !SomeUp(s, pids, s.running.value)
    ensures WakeMany(s, pids) == WakeAll(s, pids) && WakeAll(s, pids).running == s.running
  {
    hide Queued, NoneBefore, WakeAll, BestWoken;
    AwakeIs(s);
    WakeAllShape(s, pids);
    if BestWoken(s, pids) < NULL_PRIORITY {
      BestIsWoken(s, pids);
    }
  }

  lemma {:induction false} QuietTick(s: Sched, pids: seq<Pid>)
    requires Steady(s) && forall p | p in pids :: !Asleep(s, p)
    ensures WakeAll(s, pids) == s && WakeMany(s, pids) == s
  {
    hide Queued, NoneBefore, Wake;
    QuietAll(s, pids);
    assert !SomeUp(s, pids, s.running.value) by {
      assert forall i | 0 <= i < |pids| :: pids[i] in pids;
    }
    NobodyUp(s, pids);
  }

  lemma {:induction false} QuietAll(s: Sched, pids: seq<Pid>)
    requires forall p | p in pids :: !Asleep(s, p)
    ensures WakeAll(s, pids) == s
  {
    if pids != [] {
      QuietAll(s, pids[..|pids| - 1]);
      assert pids[|pids| - 1] in pids;
    }
  }

  lemma HandsOver(s: Sched, pids: seq<Pid>, i: nat)
    requires Steady(s) && FirstBest(s, pids, i) && WakeMany(s, pids).running == Some(pids[i])
    requires SomeUp(s, pids, s.running.value)
    ensures Ticked(s, WakeMany(s, pids), s.running.value, pids)
  {
    hide Queued, Switch, WakeAll, BestWoken, NoneBefore, ListsAwoke;
    BestIsFirst(s, pids, i);
    AllAwokeLaw(s, pids);
    TopNewcomer(s, pids, i);
    var m := WakeAll(s, pids);
    WakeAllShape(s, pids);
    assert WakeMany(s, pids) == Switch(m);
    PreemptLaw(m, pids[i]);
  }

  lemma BestIsFirst(s: Sched, pids: seq<Pid>, i: nat)
    requires Steady(s) && FirstBest(s, pids, i) && SomeUp(s, pids, s.running.value)
    ensures FirstUp(s, pids, i) && s.procs[pids[i]].priority < Level(s, s.running.value)
  {
    hide Queued, NoneBefore;
    AwakeIs(s);
  }

  // The first of the most urgent sleepers, woken, is the head of the best ready list.
  lemma TopNewcomer(s: Sched, pids: seq<Pid>, i: nat)
    requires Steady(s) && FirstUp(s, pids, i) && s.procs[pids[i]].priority < Level(s, s.running.value)
    ensures var m, n := WakeAll(s, pids), pids[i]; var l := s.procs[n].priority;
      && l < LEVELS && n in m.procs && m.procs[n] == Proc(Ready, l) && m.running == s.running && MayContinue(m)
      && m.procs[m.running.value].priority == Level(s, s.running.value)
      && m.Q(Slot(ReadyQ, l)) != [] && m.Q(Slot(ReadyQ, l))[0] == n && NoneBefore(m, l)
  {
    hide Queued, WakeAll;
    AwakeIs(s);
    AllAwokeLaw(s, pids);
    WakeAllShape(s, pids);
    RunnerIs(s);
    var m, b := WakeAll(s, pids), s.procs[pids[i]].priority;
    forall l: nat | l < b ensures m.Q(Slot(ReadyQ, l)) == [] {
      NoNewcomers(s, pids, l);
    }
    HeadNewcomer(s, pids, i);
  }

  lemma NoNewcomers(s: Sched, pids: seq<Pid>, l: nat)
    requires forall j | 0 <= j < |pids| && Asleep(s, pids[j]) :: s.procs[pids[j]].priority != l
    ensures Newcomers(s, pids, l) == []
  {
    if pids != [] {
      assert forall j | 0 <= j < |pids| - 1 :: pids[..|pids| - 1][j] == pids[j];
      NoNewcomers(s, pids[..|pids| - 1], l);
    }
  }

  lemma {:induction false} HeadNewcomer(s: Sched, pids: seq<Pid>, i: nat)
    requires i < |pids| && Asleep(s, pids[i])
    requires forall j | 0 <= j < i && Asleep(s, pids[j]) :: s.procs[pids[j]].priority != s.procs[pids[i]].priority
    ensures var q := Newcomers(s, pids, s.procs[pids[i]].priority); q != [] && q[0] == pids[i]
  {
    var front, p := pids[..|pids| - 1], pids[|pids| - 1];
    var l := s.procs[pids[i]].priority;
    assert forall j | 0 <= j < |front| :: front[j] == pids[j];
    if i < |front| {
      HeadNewcomer(s, front, i);
    } else {
      NoNewcomers(s, front, l);
      assert p !in front;
    }
  }
}
