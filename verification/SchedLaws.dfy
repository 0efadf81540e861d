// Laws of the scheduler that relate several of its operations.
module SchedLaws {
  import opened Rtx
  import opened Seqs
  import opened SchedSpec

  // ---------- the shape, seen from outside ----------

  // No process is in two of the fifteen lists, or twice in one.
  lemma ListsAreDisjoint(s: Sched, a: Slot, i: nat, b: Slot, j: nat)
    requires Shape(s) && i < |s.Q(a)| && j < |s.Q(b)| && s.Q(a)[i] == s.Q(b)[j]
    ensures a == b && i == j
  {
    var p := s.Q(a)[i];
    assert GoodList(s, Outside(s), a) && GoodList(s, Outside(s), b);
    assert p in s.Q(a) && p in s.Q(b);
  }

  // A live process is found by the scan of the lists and the running slot, and
  // nobody else is: the fifteen lists agree with the process table.
  lemma ScanAgrees(s: Sched, pid: Pid)
    requires Shape(s)
    ensures Found(s, pid) <==> s.running == Some(pid) || exists slot: Slot :: slot.level < LEVELS && pid in s.Q(slot)
  {
    if pid in s.procs && pid !in Outside(s) {
      assert AtHome(s, pid) && pid in s.Q(Home(s, pid));
    }
    forall slot | pid in s.Q(slot)
      ensures Found(s, pid)
    {
      assert GoodList(s, Outside(s), slot);
    }
  }

  // remove_process finds its target, and the others keep their order.
  lemma RemoveFinds(s: Sched, p: Pid)
    requires Shape(s) && p in s.procs && p !in Outside(s)
    ensures var q := s.Q(Home(s, p)); p in q && Remove(s, p).Q(Home(s, p)) == Drop(q, IndexOf(q, p))
    ensures forall slot | slot != Home(s, p) :: Remove(s, p).Q(slot) == s.Q(slot)
  {
    assert AtHome(s, p);
  }

  // A woken process leaves its blocked list and becomes the last of its ready level;
  // all others keep their places.
  lemma WokenGoesLast(s: Sched, pid: Pid)
    requires Shape(s) && CanWake(s, pid) && pid !in Outside(s)
    ensures var t, from, to := Wake(s, pid), Home(s, pid), Slot(ReadyQ, s.procs[pid].priority);
      && from != to && t.Q(to) == s.Q(to) + [pid]
      && pid in s.Q(from) && t.Q(from) == Drop(s.Q(from), IndexOf(s.Q(from), pid))
      && (forall slot | slot != from && slot != to :: t.Q(slot) == s.Q(slot))
      && t.procs == s.procs[pid := s.procs[pid].(state := Ready)] && t.running == s.running
  {
    RemoveFinds(s, pid);
  }

  // A waiting process whose priority changes becomes the last of its new level, in
  // the same family of lists.
  lemma MovedGoesLast(s: Sched, pid: Pid, priority: nat)
    requires Shape(s) && pid in s.procs && pid !in Outside(s) && priority != s.procs[pid].priority
    ensures var t, from, to := Requeue(s, pid, priority), Home(s, pid), Slot(KindOf(s.procs[pid].state), priority);
      && t.Q(to) == s.Q(to) + [pid]
      && pid in s.Q(from) && t.Q(from) == Drop(s.Q(from), IndexOf(s.Q(from), pid))
      && (forall slot | slot != from && slot != to :: t.Q(slot) == s.Q(slot))
      && t.procs == s.procs[pid := s.procs[pid].(priority := priority)] && t.running == s.running
  {
    RemoveFinds(s, pid);
  }

  // ---------- the null process ----------

  // The null process is running or is all of ready level 4, and it runs only when
  // nobody else is ready.
  lemma NullIsIdle(s: Sched)
    requires Steady(s)
    ensures s.running == Some(NULL_PID) <==> s.Q(Slot(ReadyQ, NULL_PRIORITY)) == []
    ensures s.running != Some(NULL_PID) ==> s.Q(Slot(ReadyQ, NULL_PRIORITY)) == [NULL_PID]
    ensures s.running == Some(NULL_PID) ==> forall l | 0 <= l < LEVELS :: s.Q(Slot(ReadyQ, l)) == []
  {
    var q := s.Q(Slot(ReadyQ, NULL_PRIORITY));
    assert GoodList(s, Outside(s), Slot(ReadyQ, NULL_PRIORITY));
    OnlyOne(q, NULL_PID);
    if s.running == Some(NULL_PID) {
      assert NULL_PID !in q;
    } else {
      assert AtHome(s, NULL_PID);
    }
  }

  lemma OnlyOne(q: seq<Pid>, x: Pid)
    requires NoDup(q) && forall y | y in q :: y == x
    ensures q == [] || q == [x]
  {
    NoDupBound(q, {x});
    assert q != [] ==> q[0] in q;
  }

  // ---------- round robin ----------

  // The running process followed by the ready processes of its level.
  function Ring(s: Sched): seq<Pid>
    requires s.running.Some? && s.running.value in s.procs
  {
    [s.running.value] + s.Q(Slot(ReadyQ, s.procs[s.running.value].priority))
  }

  function Rotate(q: seq<Pid>, k: nat): seq<Pid>
    requires k <= |q|
  {
    q[k..] + q[..k]
  }

  ghost function Yields(s: Sched, k: nat): Sched {
    if k == 0 then s else Switch(Yields(s, k - 1))
  }

  lemma YieldRotates(s: Sched)
    requires Steady(s)
    ensures Steady(Switch(s)) && SameWaits(s, Switch(s))
    ensures Ring(Switch(s)) == Rotate(Ring(s), 1)
    ensures Switch(s).procs[Switch(s).running.value].priority == s.procs[s.running.value].priority
    ensures forall slot | slot != Slot(ReadyQ, s.procs[s.running.value].priority) :: Switch(s).Q(slot) == s.Q(slot)
  {
    hide Queued;
    var r := s.running.value;
    var l := s.procs[r].priority;
    var t := Enqueue(s, ReadyQ, r);
    YieldSteady(s);
    assert First(t, ReadyQ) == l;
    var p := t.Q(Slot(ReadyQ, l))[0];
    assert Switch(s).running == Some(p);
    assert p in s.procs && s.procs[p].priority == l by {
      HomeLevel(s, p, l);
    }
  }

  lemma HomeLevel(s: Sched, p: Pid, l: nat)
    requires Steady(s) && l == s.procs[s.running.value].priority
    requires p in Enqueue(s, ReadyQ, s.running.value).Q(Slot(ReadyQ, l))
    ensures p in s.procs && s.procs[p].priority == l
  {
    assert GoodList(s, Outside(s), Slot(ReadyQ, l));
  }

  function Next(j: nat, n: nat): nat {
    if j + 1 == n then 0 else j + 1
  }

  lemma RotateAgain(q: seq<Pid>, j: nat)
    requires j < |q|
    ensures Rotate(Rotate(q, j), 1) == Rotate(q, Next(j, |q|))
  {
    assert q[j..] == [q[j]] + q[j + 1..];
    assert q[..j + 1] == q[..j] + [q[j]];
  }

  // With n processes at the running level, k yields rotate that level by k mod n
  // and leave every other list alone.
  lemma {:induction false} RoundRobin(s: Sched, k: nat)
    requires Steady(s)
    ensures var t := Yields(s, k);
      && Steady(t) && Ring(t) == Rotate(Ring(s), k % |Ring(s)|)
      && t.procs.Keys == s.procs.Keys
      && t.procs[t.running.value].priority == s.procs[s.running.value].priority
      && forall slot | slot != Slot(ReadyQ, s.procs[s.running.value].priority) :: t.Q(slot) == s.Q(slot)
  {
    hide Steady, Switch, Ring;
    SteadyRunning(s);
    if k == 0 {
      RotateZero(s);
    } else {
      var n := |Ring(s)|;
      RoundRobin(s, k - 1);
      YieldRotates(Yields(s, k - 1));
      RotateAgain(Ring(s), (k - 1) % n);
      ModStep(k, n);
    }
  }

  lemma SteadyRunning(s: Sched)
    requires Steady(s)
    ensures s.running.Some? && s.running.value in s.procs && |Ring(s)| > 0
  {
  }

  lemma RotateZero(s: Sched)
    requires s.running.Some? && s.running.value in s.procs
    ensures |Ring(s)| > 0 && Rotate(Ring(s), 0) == Ring(s)
  {
  }

  lemma ModStep(k: nat, n: nat)
    requires k > 0 && n > 0
    ensures k % n == Next((k - 1) % n, n)
  {
    var a, r, b, m := (k - 1) / n, (k - 1) % n, k / n, k % n;
    assert (b - a) * n == r + 1 - m by {
      assert k - 1 == a * n + r && k == b * n + m;
      assert (b - a) * n == b * n - a * n;
    }
    Small(b - a, n, r + 1 - m);
  }

  lemma Small(d: int, n: int, x: int)
    requires n > 0 && d * n == x && -n < x <= n
    ensures d == 0 || d == 1
  {
    if d >= 2 {
      Product(d - 2, n);
    } else if d <= -1 {
      Product(-1 - d, n);
    }
  }

  lemma Product(a: int, b: int)
    requires a >= 0 && b >= 0
    ensures a * b >= 0
  {
  }

  // ---------- preemption is immediate, and happens only when it must ----------

  // A switch goes to the head of the first ready level when that is better than the
  // running process.
  lemma SwitchTo(s: Sched, l: nat)
    requires s.running.Some? && s.running.value in s.procs && l < LEVELS && l < s.procs[s.running.value].priority
    requires NoneBefore(s, l) && s.Q(Slot(ReadyQ, l)) != []
    ensures Switch(s).running == Some(s.Q(Slot(ReadyQ, l))[0])
  {
    assert First(s, ReadyQ) == l;
    var t := Enqueue(s, ReadyQ, s.running.value);
    assert t.Q(Slot(ReadyQ, l)) == s.Q(Slot(ReadyQ, l));
    assert First(t, ReadyQ) == l;
  }

  // A woken process runs at once if it outranks the running process, and otherwise
  // the running process goes on.
  lemma WakePreempts(s: Sched, pid: Pid)
    requires Steady(s)
    ensures UnblockPid(s, pid, true).running ==
      if CanWake(s, pid) && s.procs[pid].priority < s.procs[s.running.value].priority then Some(pid) else s.running
  {
    hide Queued, Switch;
    WakeShape(s, pid);
    if CanWake(s, pid) && s.procs[pid].priority < s.procs[s.running.value].priority {
      WokenGoesLast(s, pid);
      SwitchTo(Wake(s, pid), s.procs[pid].priority);
    }
  }

  lemma ReleasePreempts(s: Sched, kind: Kind)
    requires Steady(s) && kind != ReadyQ
    ensures UnblockType(s, kind).running ==
      if First(s, kind) < LEVELS && First(s, kind) < s.procs[s.running.value].priority
      then Some(Pop(s, kind).1) else s.running
  {
    hide Queued, Switch;
    if First(s, kind) < LEVELS {
      PopShape(s, Outside(s), kind);
      var (t, p) := Pop(s, kind);
      var u := Enqueue(SetState(t, p, Ready), ReadyQ, p);
      forall l: nat ensures u.Q(Slot(ReadyQ, l)) == s.Q(Slot(ReadyQ, l)) + (if l == First(s, kind) then [p] else []) {
        assert t.Q(Slot(ReadyQ, l)) == s.Q(Slot(ReadyQ, l)) == SetState(t, p, Ready).Q(Slot(ReadyQ, l));
      }
      if First(s, kind) < s.procs[s.running.value].priority {
        SwitchTo(u, First(s, kind));
      }
    }
  }

  // Position i of pids holds the first of the best processes that can be woken.
  ghost predicate FirstBest(s: Sched, pids: seq<Pid>, i: nat) {
    && i < |pids| && CanWake(s, pids[i])
    && (forall j | 0 <= j < |pids| && CanWake(s, pids[j]) :: s.procs[pids[i]].priority <= s.procs[pids[j]].priority)
    && (forall j | 0 <= j < i && CanWake(s, pids[j]) :: s.procs[pids[i]].priority < s.procs[pids[j]].priority)
  }

  // A tick that wakes somebody better than the running process hands over to the first
  // of the best it woke; a tick that wakes nobody better changes nothing.
  lemma TickPreempts(s: Sched, pids: seq<Pid>)
    requires Steady(s)
    ensures (forall p | p in pids && CanWake(s, p) :: !Outranks(s, p)) ==> WakeMany(s, pids).running == s.running
    ensures (exists p :: p in pids && CanWake(s, p) && Outranks(s, p)) ==>
      exists i: nat :: FirstBest(s, pids, i) && WakeMany(s, pids).running == Some(pids[i])
  {
    hide Queued, Switch, WakeAll, BestWoken, FirstBest;
    WakeAllShape(s, pids);
    if BestWoken(s, pids) < NULL_PRIORITY {
      BestIsWoken(s, pids);
    }
    if p :| p in pids && CanWake(s, p) && Outranks(s, p) {
      BestRuns(s, pids, p);
      FirstOfBest(s, pids);
    }
  }

  // With somebody better woken, the processor goes to a woken process of the best priority.
  lemma BestRuns(s: Sched, pids: seq<Pid>, p: Pid)
    requires Steady(s) && p in pids && CanWake(s, p) && Outranks(s, p)
    ensures var r' := WakeMany(s, pids).running;
      && r'.Some? && r'.value in pids && CanWake(s, r'.value) && Outranks(s, r'.value)
      && forall x | x in pids && CanWake(s, x) :: s.procs[r'.value].priority <= s.procs[x].priority
  {
    hide Queued, Switch, WakeAll, BestWoken;
    var t := WakeMany(s, pids);
    WakeAllShape(s, pids);
    WakeManySteady(s, pids);
    forall x | x in pids && CanWake(s, x)
      ensures t.procs[t.running.value].priority <= s.procs[x].priority
    {
      NoneBetter(t, x);
    }
    if !CanWake(s, t.running.value) {
      NoneBetter(s, t.running.value);
    }
  }

  // That process is at the head of its ready list before the switch, hence it is the
  // first of its priority among those woken.
  lemma FirstOfBest(s: Sched, pids: seq<Pid>)
    requires Steady(s) && WakeMany(s, pids).running.Some?
    requires var r' := WakeMany(s, pids).running.value;
      && r' in pids && CanWake(s, r') && Outranks(s, r')
      && forall x | x in pids && CanWake(s, x) :: s.procs[r'].priority <= s.procs[x].priority
    ensures exists i: nat :: FirstBest(s, pids, i) && WakeMany(s, pids).running == Some(pids[i])
  {
    hide Queued, Switch, WakeAll, BestWoken, CanWake;
    var t := WakeAll(s, pids);
    var r' := WakeMany(s, pids).running.value;
    var b := s.procs[r'].priority;
    WakeAllShape(s, pids);
    RunnerIsAwake(s, r');
    forall l: nat | l < s.procs[s.running.value].priority
      ensures WokenInOrder(s, pids, t.Q(Slot(ReadyQ, l)), l)
    {
      WokenQueue(s, pids, l);
    }
    forall l | 0 <= l < b ensures t.Q(Slot(ReadyQ, l)) == [] {
      assert WokenInOrder(s, pids, t.Q(Slot(ReadyQ, l)), l);
    }
    assert WokenInOrder(s, pids, t.Q(Slot(ReadyQ, b)), b);
    SwitchTo(t, b);
    var i := FirstIndex(pids, WokenAt(s, b));
    assert pids[i] == r';
    forall j | 0 <= j < |pids| && CanWake(s, pids[j]) ensures pids[j] in s.procs {
      RunnerIsAwake(s, pids[j]);
    }
    forall j | 0 <= j < |pids| && CanWake(s, pids[j])
      ensures b <= s.procs[pids[j]].priority && (j < i ==> b < s.procs[pids[j]].priority)
    {
      assert pids[j] in pids;
      assert j < i ==> !WokenAt(s, b)(pids[j]);
    }
    assert FirstBest(s, pids, i);
  }

  lemma RunnerIsAwake(s: Sched, p: Pid)
    requires Steady(s) && CanWake(s, p)
    ensures s.running != Some(p) && p in s.procs && s.procs[p].priority < LEVELS && p != MAIN_PID
  {
    assert AtHome(s, p);
  }

  function WokenAt(s: Sched, l: nat): Pid -> bool {
    (p: Pid) => CanWake(s, p) && s.procs[p].priority == l
  }

  // q starts with the first process of pids that is woken at level l, if there is one.
  ghost predicate WokenInOrder(s: Sched, pids: seq<Pid>, q: seq<Pid>, l: nat) {
    var i := FirstIndex(pids, WokenAt(s, l));
    if i == |pids| then q == [] else q != [] && q[0] == pids[i]
  }

  // The ready lists above the running process hold exactly the woken ones.
  lemma {:induction false} WokenQueue(s: Sched, pids: seq<Pid>, l: nat)
    requires Steady(s) && l < s.procs[s.running.value].priority
    ensures WokenInOrder(s, pids, WakeAll(s, pids).Q(Slot(ReadyQ, l)), l)
  {
    hide Queued, Wake, FirstIndex, CanWake;
    if pids == [] {
      assert s.Q(Slot(ReadyQ, l)) == [];
    } else {
      var front, p := pids[..|pids| - 1], pids[|pids| - 1];
      var t := WakeAll(s, front);
      WokenQueue(s, front, l);
      WakeAllShape(s, front);
      WakeOnce(s, front, p);
      if CanWake(t, p) {
        RunnerSleepsNot(t, p);
        WokenGoesLast(t, p);
      } else {
        StaysAsleep(t, p);
      }
      FirstOfMore(front, p, WokenAt(s, l));
      assert pids == front + [p];
    }
  }

  lemma RunnerSleepsNot(t: Sched, p: Pid)
    requires Shape(t) && CanWake(t, p) && t.running.Some? && !IsBlocked(t.procs[t.running.value].state)
    ensures p !in Outside(t)
  {
  }

  lemma StaysAsleep(t: Sched, p: Pid)
    requires !CanWake(t, p)
    ensures Wake(t, p) == t
  {
  }

  // Everybody is woken at most once.
  lemma WakeOnce(s: Sched, front: seq<Pid>, p: Pid)
    requires Steady(s)
    ensures var t := WakeAll(s, front);
      && (CanWake(t, p) <==> CanWake(s, p) && p !in front)
      && (CanWake(t, p) ==> p in t.procs && t.procs[p].priority == s.procs[p].priority)
  {
    hide Queued, WakeAll;
    WakeAllShape(s, front);
  }

  lemma FirstIs(q: seq<Pid>, p: Pid -> bool, i: nat)
    requires i <= |q| && (i < |q| ==> p(q[i])) && forall j | 0 <= j < i :: !p(q[j])
    ensures FirstIndex(q, p) == i
  {
    hide FirstIndex;
  }

  lemma FirstOfMore(q: seq<Pid>, x: Pid, p: Pid -> bool)
    ensures FirstIndex(q + [x], p) ==
      if FirstIndex(q, p) < |q| then FirstIndex(q, p) else if p(x) then |q| else |q| + 1
    ensures x in q && p(x) ==> FirstIndex(q, p) < |q|
  {
    hide FirstIndex;
    var i := FirstIndex(q, p);
    assert forall k | 0 <= k < |q| :: (q + [x])[k] == q[k];
    FirstIs(q + [x], p, if i < |q| then i else if p(x) then |q| else |q| + 1);
  }

  lemma NoneBetter(s: Sched, p: Pid)
    requires Steady(s) && p in s.procs && p != MAIN_PID && KindOf(s.procs[p].state) == ReadyQ
    ensures s.procs[s.running.value].priority <= s.procs[p].priority
  {
    if p != s.running.value {
      assert AtHome(s, p);
    }
  }

  lemma {:induction false} BestIsWoken(s: Sched, pids: seq<Pid>)
    requires Steady(s) && BestWoken(s, pids) < NULL_PRIORITY
    ensures exists p :: p in pids && CanWake(s, p) && s.procs[p].priority == BestWoken(s, pids)
  {
    var front, p := pids[..|pids| - 1], pids[|pids| - 1];
    WakeAllShape(s, front);
    assert forall x | x in front :: x in pids;
    assert p in pids;
    if BestWoken(s, front) < NULL_PRIORITY {
      BestIsWoken(s, front);
    }
  }

  // The processor of a process that blocks or ends goes to the head of the best ready
  // list, and the blocked process waits last at its level.
  lemma BlockRunsNext(s: Sched, kind: Kind)
    requires Steady(s) && s.running.value != NULL_PID && kind != ReadyQ
    ensures First(s, ReadyQ) < LEVELS && BlockRunning(s, kind).running == Some(Pop(s, ReadyQ).1)
    ensures var slot := Slot(kind, s.procs[s.running.value].priority);
      BlockRunning(s, kind).Q(slot) == s.Q(slot) + [s.running.value]
  {
    hide Queued;
    NullIsIdle(s);
    var r := s.running.value;
    var t := Enqueue(SetState(s, r, Blocking(kind)), kind, r);
    assert forall l: nat :: SetState(s, r, Blocking(kind)).Q(Slot(ReadyQ, l)) == s.Q(Slot(ReadyQ, l));
    assert forall l: nat :: t.Q(Slot(ReadyQ, l)) == s.Q(Slot(ReadyQ, l));
    SameFirst(s, t);
  }

  lemma ExitRunsNext(s: Sched)
    requires Steady(s) && s.running.value != NULL_PID
    ensures First(s, ReadyQ) < LEVELS && Terminate(s).running == Some(Pop(s, ReadyQ).1)
  {
    hide Queued;
    NullIsIdle(s);
    SameFirst(s, s.(running := None, procs := s.procs - {s.running.value}));
  }

  lemma SameFirst(s: Sched, t: Sched)
    requires forall l: nat :: t.Q(Slot(ReadyQ, l)) == s.Q(Slot(ReadyQ, l))
    ensures First(t, ReadyQ) == First(s, ReadyQ)
  {
    var i, j := First(s, ReadyQ), First(t, ReadyQ);
    assert i < LEVELS ==> t.Q(Slot(ReadyQ, i)) != [];
  }

  // ---------- priorities ----------

  // A successful set is what get reports next; a refused one changes nothing.
  lemma SetThenGet(s: Sched, pid: int, priority: int)
    requires Steady(s)
    ensures var (t, code) := SetPriority(s, pid, priority);
      if code == 0 then pid > 0 && GetPriority(t, pid) == priority else t == s
    ensures SetPriority(s, pid, priority).1 ==
      (if pid <= 0 then 2 else if !(0 <= priority <= 3) then 3 else if !Found(s, pid) then 4 else 0)
  {
    hide Queued, NoneBefore, Switch, Requeue;
    SetPrioritySteady(s, pid, priority);
  }

  // Who runs after a successful set: a ready process that now outranks the running one
  // runs at once; a running process that was lowered goes on if nobody ready is at its
  // new level or better, and otherwise gives way to the head of the best ready list; in
  // every other case the running process goes on.
  lemma SetPreempts(s: Sched, pid: int, priority: int)
    requires Steady(s) && SetPriority(s, pid, priority).1 == 0 && s.procs[pid].priority != priority
    ensures var r, r' := s.running.value, SetPriority(s, pid, priority).0.running;
      if pid != r then
        r' == if KindOf(s.procs[pid].state) == ReadyQ && priority < s.procs[r].priority then Some(pid) else s.running
      else if priority < s.procs[r].priority || NoneBefore(s, priority + 1) then r' == s.running
      else First(s, ReadyQ) <= priority && r' == Some(Pop(s, ReadyQ).1) && r' != s.running
  {
    hide Queued, Requeue;
    var r := s.running.value;
    if pid != r {
      hide Switch;
      MovedGoesLast(s, pid, priority);
      var t := Requeue(s, pid, priority);
      if KindOf(s.procs[pid].state) == ReadyQ && priority < s.procs[r].priority {
        SwitchTo(t, priority);
      }
    } else if priority > s.procs[r].priority {
      forall l: nat ensures r !in s.Q(Slot(ReadyQ, l)) {
        RunnerIsUnlisted(s, Slot(ReadyQ, l));
      }
      assert forall l: nat :: SetLevel(s, pid, priority).Q(Slot(ReadyQ, l)) == s.Q(Slot(ReadyQ, l));
      SameFirst(s, SetLevel(s, pid, priority));
      LoweredRuns(SetLevel(s, pid, priority));
    }
  }

  lemma RunnerIsUnlisted(s: Sched, slot: Slot)
    requires Shape(s) && s.running.Some?
    ensures s.running.value !in s.Q(slot)
  {
    assert GoodList(s, Outside(s), slot);
  }

  lemma LoweredRuns(s: Sched)
    requires s.running.Some? && s.running.value != MAIN_PID && s.running.value in s.procs
    requires s.procs[s.running.value].state == Ready && s.procs[s.running.value].priority < LEVELS
    requires forall l: nat :: s.running.value !in s.Q(Slot(ReadyQ, l))
    ensures NoneBefore(s, s.procs[s.running.value].priority + 1) ==> Switch(s).running == s.running
    ensures !NoneBefore(s, s.procs[s.running.value].priority + 1) ==>
      && First(s, ReadyQ) <= s.procs[s.running.value].priority
      && Switch(s).running == Some(Pop(s, ReadyQ).1) && Switch(s).running != s.running
  {
    var r := s.running.value;
    var l := s.procs[r].priority;
    var t := Enqueue(s, ReadyQ, r);
    var f := First(t, ReadyQ);
    assert t.Q(Slot(ReadyQ, l)) == s.Q(Slot(ReadyQ, l)) + [r];
    assert f <= l;
    assert Switch(s).running == Some(t.Q(Slot(ReadyQ, f))[0]);
    if f < l {
      assert t.Q(Slot(ReadyQ, f)) == s.Q(Slot(ReadyQ, f)) && s.Q(Slot(ReadyQ, f))[0] in s.Q(Slot(ReadyQ, f));
    } else if s.Q(Slot(ReadyQ, l)) != [] {
      assert t.Q(Slot(ReadyQ, l))[0] == s.Q(Slot(ReadyQ, l))[0] && s.Q(Slot(ReadyQ, l))[0] in s.Q(Slot(ReadyQ, l));
    } else {
      assert forall i | 0 <= i < l :: t.Q(Slot(ReadyQ, i)) == s.Q(Slot(ReadyQ, i));
    }
  }
}
