// Every list is in order of arrival: the processor goes to the process that has been
// ready longest at the best level, and a release wakes the process that has waited
// longest at the best level where somebody waits.
module WaitOrder {
  import opened Rtx
  import opened Seqs
  import opened SchedSpec
  import opened SchedLaws
  import opened AllocSpec
  import opened KernelSpec
  import opened Runs

  // ---------- first come, first served, within one step ----------

  // Those of q that are still in q' keep their order, and newcomers stand behind them.
  ghost predicate Follows(q: seq<Pid>, q': seq<Pid>) {
    forall i, j | 0 <= i < j < |q'| && q'[j] in q :: q'[i] in q && IndexOf(q, q'[i]) < IndexOf(q, q'[j])
  }

  ghost predicate Fair(s: Sched, t: Sched) {
    forall slot :: Follows(s.Q(slot), t.Q(slot))
  }

  lemma AtIndex(q: seq<Pid>, i: nat)
    requires NoDup(q) && i < |q|
    ensures q[i] in q && IndexOf(q, q[i]) == i
  {
  }

  // The ways in which one operation changes a list.
  lemma FollowsSame(q: seq<Pid>)
    requires NoDup(q)
    ensures Follows(q, q)
  {
    hide IndexOf;
    forall i, j | 0 <= i < j < |q| ensures q[i] in q && IndexOf(q, q[i]) < IndexOf(q, q[j]) {
      AtIndex(q, i);
      AtIndex(q, j);
    }
  }

  lemma FollowsTail(q: seq<Pid>)
    requires NoDup(q) && q != []
    ensures Follows(q, q[1..])
  {
    hide IndexOf;
    var t := q[1..];
    forall i, j | 0 <= i < j < |t| ensures t[i] in q && t[j] in q && IndexOf(q, t[i]) < IndexOf(q, t[j]) {
      AtIndex(q, i + 1);
      AtIndex(q, j + 1);
    }
  }

  lemma FollowsWithout(q: seq<Pid>, p: Pid)
    requires NoDup(q)
    ensures Follows(q, Without(q, p))
  {
    hide IndexOf;
    if p in q {
      var k := IndexOf(q, p);
      var t := Drop(q, k);
      forall i, j | 0 <= i < j < |t| ensures t[i] in q && t[j] in q && IndexOf(q, t[i]) < IndexOf(q, t[j]) {
        AtIndex(q, if i < k then i else i + 1);
        AtIndex(q, if j < k then j else j + 1);
      }
    } else {
      FollowsSame(q);
    }
  }

  lemma FollowsMore(q: seq<Pid>, q': seq<Pid>, p: Pid)
    requires Follows(q, q') && p !in q
    ensures Follows(q, q' + [p])
  {
    hide IndexOf;
  }

  lemma FollowsForms(q: seq<Pid>, p: Pid)
    requires NoDup(q)
    ensures Follows(q, q) && Follows(q, Without(q, p)) && (q != [] ==> Follows(q, q[1..]))
    ensures p !in q ==> Follows(q, q + [p]) && Follows(q, (q + [p])[1..])
  {
    hide Follows, Without, IndexOf;
    FollowsSame(q);
    FollowsWithout(q, p);
    if q != [] {
      FollowsTail(q);
    }
    if p !in q {
      FollowsMore(q, q, p);
      assert (q + [p])[1..] == if q == [] then q else q[1..] + [p];
      if q != [] {
        FollowsMore(q, q[1..], p);
      }
    }
  }

  // A process that left a list did not come back to it.
  lemma FollowsOn(q: seq<Pid>, q1: seq<Pid>, q2: seq<Pid>)
    requires Follows(q, q1) && Follows(q1, q2) && forall x | x in q && x in q2 :: x in q1
    ensures Follows(q, q2)
  {
    forall i, j | 0 <= i < j < |q2| && q2[j] in q
      ensures q2[i] in q && IndexOf(q, q2[i]) < IndexOf(q, q2[j])
    {
      assert q2[j] in q2 && q2[i] in q1;
      var a, b := IndexOf(q1, q2[i]), IndexOf(q1, q2[j]);
      assert q1[a] == q2[i] && q1[b] == q2[j];
    }
  }

  lemma FairOn(s: Sched, t: Sched, u: Sched)
    requires Fair(s, t) && Fair(t, u) && forall slot, x | x in s.Q(slot) && x in u.Q(slot) :: x in t.Q(slot)
    ensures Fair(s, u)
  {
    forall slot ensures Follows(s.Q(slot), u.Q(slot)) {
      FollowsOn(s.Q(slot), t.Q(slot), u.Q(slot));
    }
  }

  ghost predicate Distinct(s: Sched) {
    forall slot :: NoDup(s.Q(slot))
  }

  ghost predicate Nowhere(s: Sched, p: Pid) {
    forall slot :: p !in s.Q(slot)
  }

  lemma SameFair(s: Sched, t: Sched)
    requires Distinct(s) && t.queues == s.queues
    ensures Fair(s, t)
  {
    forall slot ensures Follows(s.Q(slot), t.Q(slot)) {
      FollowsForms(s.Q(slot), 0);
    }
  }

  // The processor changes hands: the old process, if it goes on, joins its list last,
  // and the new one leaves the front of a list.
  lemma SwitchFair(s: Sched)
    requires Distinct(s) && (s.running.Some? ==> Nowhere(s, s.running.value))
    ensures Fair(s, Switch(s))
    ensures forall slot, x | x in Switch(s).Q(slot) :: x in s.Q(slot) || s.running == Some(x)
  {
    hide FirstFrom, Follows;
    var r := if s.running.Some? then s.running.value else 0;
    var t := if MayContinue(s) then Enqueue(s, ReadyQ, r) else s;
    forall slot
      ensures Follows(s.Q(slot), Switch(s).Q(slot))
      ensures forall x | x in Switch(s).Q(slot) :: x in s.Q(slot) || s.running == Some(x)
    {
      FollowsForms(s.Q(slot), r);
      assert t.Q(slot) == s.Q(slot) || (MayContinue(s) && r !in s.Q(slot) && t.Q(slot) == s.Q(slot) + [r]);
      assert Switch(s).Q(slot) == t.Q(slot) || (t.Q(slot) != [] && Switch(s).Q(slot) == t.Q(slot)[1..]);
    }
  }

  lemma ThenSwitch(s: Sched, t: Sched)
    requires Fair(s, t) && Distinct(t)
    requires t.running.Some? ==> Nowhere(s, t.running.value) && Nowhere(t, t.running.value)
    ensures Fair(s, Switch(t))
  {
    hide Fair, Switch;
    SwitchFair(t);
    forall slot, x | x in s.Q(slot) && x in Switch(t).Q(slot) ensures x in t.Q(slot) {
      assert t.running != Some(x);
    }
    FairOn(s, t, Switch(t));
  }

  lemma ShapeLists(s: Sched)
    requires Shape(s)
    ensures Distinct(s) && (s.running.Some? ==> Nowhere(s, s.running.value))
  {
    forall slot ensures NoDup(s.Q(slot)) && (s.running.Some? ==> s.running.value !in s.Q(slot)) {
      assert GoodList(s, Outside(s), slot);
    }
  }

  // ---------- the scheduler's operations are fair ----------

  lemma YieldFair(s: Sched)
    requires Steady(s)
    ensures Fair(s, Switch(s))
  {
    ShapeLists(s);
    SwitchFair(s);
  }

  lemma ExitFair(s: Sched)
    requires Steady(s)
    ensures Fair(s, Terminate(s))
  {
    ShapeLists(s);
    var t := s.(running := None, procs := s.procs - {s.running.value});
    assert forall slot :: t.Q(slot) == s.Q(slot);
    SwitchFair(t);
  }

  lemma BlockFair(s: Sched, kind: Kind)
    requires Steady(s) && kind != ReadyQ
    ensures Fair(s, BlockRunning(s, kind))
  {
    hide Switch, Fair, Queued, NoneBefore;
    ShapeLists(s);
    var r := s.running.value;
    var t := Enqueue(SetState(s, r, Blocking(kind)), kind, r);
    JoinFair(s, SetState(s, r, Blocking(kind)), kind, r);
    BlockedSwitch(s, t, r);
  }

  // t has the lists of s before p joins.
  lemma JoinFair(s: Sched, t: Sched, kind: Kind, p: Pid)
    requires Distinct(s) && Nowhere(s, p) && t.queues == s.queues && p in t.procs
    ensures var u := Enqueue(t, kind, p);
      Fair(s, u) && Distinct(u) && forall slot, x | x in u.Q(slot) :: x in s.Q(slot) || x == p
    ensures forall slot, x | x in s.Q(slot) :: x in Enqueue(t, kind, p).Q(slot)
  {
    hide Follows;
    forall slot
      ensures Follows(s.Q(slot), Enqueue(t, kind, p).Q(slot)) && NoDup(Enqueue(t, kind, p).Q(slot))
    {
      FollowsForms(s.Q(slot), p);
      assert t.Q(slot) == s.Q(slot);
    }
  }

  lemma BlockedSwitch(s: Sched, t: Sched, r: Pid)
    requires Fair(s, t) && Distinct(t) && t.running == Some(r) && r in t.procs && t.procs[r].state != Ready
    requires forall slot, x | x in s.Q(slot) :: x in t.Q(slot)
    ensures Fair(s, Switch(t))
  {
    hide Fair, Switch;
    DispatchFair(t);
    assert Switch(t) == Dispatch(t) by { BlockedDispatches(t); }
    FairOn(s, t, Dispatch(t));
  }

  lemma BlockedDispatches(t: Sched)
    requires t.running.Some? && t.running.value in t.procs && t.procs[t.running.value].state != Ready
    ensures Switch(t) == Dispatch(t)
  {
  }

  lemma DispatchFair(s: Sched)
    requires Distinct(s)
    ensures Fair(s, Dispatch(s))
  {
    hide FirstFrom, Follows;
    forall slot ensures Follows(s.Q(slot), Dispatch(s).Q(slot)) {
      FollowsForms(s.Q(slot), 0);
      assert Dispatch(s).Q(slot) == s.Q(slot) || (s.Q(slot) != [] && Dispatch(s).Q(slot) == s.Q(slot)[1..]);
    }
  }

  lemma WakeFair(s: Sched, pid: Pid)
    requires Shape(s) && s.running.Some? && !IsBlocked(s.procs[s.running.value].state)
    ensures Fair(s, Wake(s, pid))
    ensures forall slot, x | x in Wake(s, pid).Q(slot) ::
      x in s.Q(slot) || (x == pid && CanWake(s, pid) && slot.kind == ReadyQ)
  {
    hide Wake, Follows;
    ShapeLists(s);
    if CanWake(s, pid) {
      WokenGoesLast(s, pid);
      var to := Slot(ReadyQ, s.procs[pid].priority);
      assert pid !in s.Q(to) by {
        assert GoodList(s, Outside(s), to);
      }
    } else {
      CannotWake(s, pid);
    }
    forall slot ensures Follows(s.Q(slot), Wake(s, pid).Q(slot)) {
      FollowsForms(s.Q(slot), pid);
    }
  }

  lemma CannotWake(s: Sched, pid: Pid)
    requires !CanWake(s, pid)
    ensures Wake(s, pid) == s
  {
  }

  lemma SendFair(s: Sched, pid: Pid)
    requires Steady(s)
    ensures Fair(s, UnblockPid(s, pid, true))
  {
    hide Switch, Wake, Fair, Queued;
    ShapeLists(s);
    WakeFair(s, pid);
    WakeShape(s, pid);
    ShapeLists(Wake(s, pid));
    ThenSwitch(s, Wake(s, pid));
  }

  lemma {:induction false} WakeAllFair(s: Sched, pids: seq<Pid>)
    requires Steady(s)
    ensures Fair(s, WakeAll(s, pids))
  {
    hide Wake, Fair, Queued, NoneBefore;
    if pids == [] {
      ShapeLists(s);
      SameFair(s, s);
    } else {
      var front, p := pids[..|pids| - 1], pids[|pids| - 1];
      var t := WakeAll(s, front);
      WakeAllFair(s, front);
      WakeAllShape(s, front);
      WakeFair(t, p);
      forall slot, x | x in s.Q(slot) && x in Wake(t, p).Q(slot)
        ensures x in t.Q(slot)
      {
        if x == p && CanWake(t, p) && slot.kind == ReadyQ {
          SleeperIsUnready(s, p, slot);
        }
      }
      FairOn(s, t, Wake(t, p));
    }
  }

  lemma SleeperIsUnready(s: Sched, p: Pid, slot: Slot)
    requires Shape(s) && p in s.procs && IsBlocked(s.procs[p].state) && slot.kind == ReadyQ
    ensures p !in s.Q(slot)
  {
    assert GoodList(s, Outside(s), slot);
  }

  lemma TickFair(s: Sched, pids: seq<Pid>)
    requires Steady(s)
    ensures Fair(s, WakeMany(s, pids))
  {
    hide Switch, WakeAll, Fair, Queued;
    ShapeLists(s);
    WakeAllFair(s, pids);
    WakeAllShape(s, pids);
    ShapeLists(WakeAll(s, pids));
    ThenSwitch(s, WakeAll(s, pids));
  }

  lemma ReleaseFair(s: Sched, kind: Kind)
    requires Steady(s) && kind != ReadyQ
    ensures Fair(s, UnblockType(s, kind))
  {
    hide Switch, Fair, Queued, NoneBefore, FirstFrom;
    ShapeLists(s);
    if First(s, kind) == LEVELS {
      SameFair(s, s);
    } else {
      var (t, p) := Pop(s, kind);
      PopIsFair(s, kind);
      var u := Enqueue(SetState(t, p, Ready), ReadyQ, p);
      ThenSwitch(s, u);
    }
  }

  lemma PopIsFair(s: Sched, kind: Kind)
    requires Steady(s) && kind != ReadyQ && First(s, kind) < LEVELS
    ensures var (t, p) := Pop(s, kind);
      && p in t.procs && t.procs == s.procs
      && var u := Enqueue(SetState(t, p, Ready), ReadyQ, p);
         Fair(s, u) && Distinct(u) && u.running == s.running && Nowhere(u, s.running.value)
  {
    hide Follows, FirstFrom;
    var (t, p) := Pop(s, kind);
    PopShape(s, Outside(s), kind);
    var to := Slot(ReadyQ, s.procs[p].priority);
    var u := Enqueue(SetState(t, p, Ready), ReadyQ, p);
    forall slot
      ensures Follows(s.Q(slot), u.Q(slot)) && NoDup(u.Q(slot)) && s.running.value !in u.Q(slot)
    {
      assert GoodList(s, Outside(s), slot);
      FollowsForms(s.Q(slot), p);
      assert SetState(t, p, Ready).Q(slot) == t.Q(slot);
      assert u.Q(slot) == if slot == to then s.Q(slot) + [p] else t.Q(slot);
    }
  }

  lemma SetFair(s: Sched, pid: int, priority: int)
    requires Steady(s)
    ensures Fair(s, SetPriority(s, pid, priority).0)
  {
    hide Switch, Fair, Queued, NoneBefore, Requeue;
    ShapeLists(s);
    SetPrioritySteady(s, pid, priority);
    if SetPriority(s, pid, priority).1 != 0 || s.procs[pid].priority == priority {
      SameFair(s, s);
    } else if s.running == Some(pid) {
      SameFair(s, SetLevel(s, pid, priority));
      SameLists(s, SetLevel(s, pid, priority));
      ThenSwitch(s, SetLevel(s, pid, priority));
    } else {
      RequeueShape(s, pid, priority);
      RequeueFair(s, pid, priority);
      ShapeLists(Requeue(s, pid, priority));
      ThenSwitch(s, Requeue(s, pid, priority));
    }
  }

  lemma SameLists(s: Sched, t: Sched)
    requires t.queues == s.queues
    ensures Distinct(s) ==> Distinct(t)
    ensures forall p | Nowhere(s, p) :: Nowhere(t, p)
  {
    assert forall slot :: t.Q(slot) == s.Q(slot);
  }

  lemma RequeueFair(s: Sched, pid: Pid, priority: nat)
    requires Shape(s) && pid in s.procs && pid !in Outside(s) && priority != s.procs[pid].priority
    ensures Fair(s, Requeue(s, pid, priority))
  {
    hide Requeue, Follows;
    ShapeLists(s);
    MovedGoesLast(s, pid, priority);
    var to := Slot(KindOf(s.procs[pid].state), priority);
    assert pid !in s.Q(to) by {
      assert GoodList(s, Outside(s), to);
    }
    forall slot ensures Follows(s.Q(slot), Requeue(s, pid, priority).Q(slot)) {
      FollowsForms(s.Q(slot), pid);
    }
  }

  // ---------- order of arrival, over runs ----------

  // Two processes can become ready in the same step, but only one can go to sleep.
  function Apart(kind: Kind): nat {
    if kind == ReadyQ then 0 else 1
  }

  // q is in the order in which its processes joined it.
  ghost predicate Oldest(q: seq<Pid>, since: map<Pid, nat>, apart: nat) {
    && (forall p | p in q :: p in since)
    && (forall i, j | 0 <= i < j < |q| :: since[q[i]] + apart <= since[q[j]])
  }

  ghost predicate InOrder(s: Sched, since: map<Pid, nat>) {
    forall slot :: Oldest(s.Q(slot), since, Apart(slot.kind))
  }

  // Everybody in a list joined it in an earlier step, and stands in order.
  ghost predicate Waited(w: World) {
    && InOrder(w.k.sched, w.h.since)
    && (forall p | p in w.h.since :: w.h.since[p] < w.h.clock)
  }

  // Whoever sleeps in t, except p, slept at the same level in s.
  ghost predicate Slept(s: Sched, t: Sched, p: Pid) {
    forall x | x in t.procs && IsBlocked(t.procs[x].state) && x != p :: x in s.procs && s.procs[x] == t.procs[x]
  }

  lemma OldestFollows(q: seq<Pid>, q': seq<Pid>, since: map<Pid, nat>, j: map<Pid, nat>, apart: nat, clock: nat)
    requires Oldest(q, since, apart) && Follows(q, q') && forall p | p in since :: since[p] < clock
    requires forall p | p in q' :: p in j && j[p] == if p in q && p in since then since[p] else clock
    requires apart <= 1 && (apart == 1 ==> forall a, b | 0 <= a < b < |q'| :: q'[a] in q || q'[b] in q)
    ensures Oldest(q', j, apart)
  {
    forall a, b | 0 <= a < b < |q'|
      ensures j[q'[a]] + apart <= j[q'[b]]
    {
      assert q'[a] in q' && q'[b] in q';
      if q'[b] in q {
        var i, k := IndexOf(q, q'[a]), IndexOf(q, q'[b]);
        assert since[q[i]] + apart <= since[q[k]];
      }
    }
  }

  // A fair step in which at most one process goes to sleep keeps the order.
  lemma Recorded(s: Sched, t: Sched, h: Hist, p: Pid)
    requires Steady(s) && Shape(t) && Fair(s, t) && Slept(s, t, p)
    requires InOrder(s, h.since) && forall x | x in h.since :: h.since[x] < h.clock
    ensures InOrder(t, Joined(s, t, h))
  {
    hide Follows, Oldest, NoneBefore;
    forall slot ensures Oldest(t.Q(slot), Joined(s, t, h), Apart(slot.kind)) {
      var q, q' := s.Q(slot), t.Q(slot);
      assert GoodList(t, Outside(t), slot) && Oldest(q, h.since, Apart(slot.kind)) && Follows(q, q');
      if slot.kind != ReadyQ {
        forall x | x in q' && x != p ensures x in q {
          assert x in s.procs && Home(s, x) == slot && AtHome(s, x);
        }
        assert forall a, b | 0 <= a < b < |q'| :: q'[a] in q' && q'[b] in q';
      }
      OldestFollows(q, q', h.since, Joined(s, t, h), Apart(slot.kind), h.clock);
    }
  }

  // A fair operation in which nobody but p goes to sleep.
  ghost predicate FairTo(s: Sched, t: Sched, p: Pid) {
    Fair(s, t) && Slept(s, t, p) && Shape(t)
  }

  lemma SleptOn(s: Sched, m: Sched, t: Sched, p: Pid)
    requires Slept(s, m, p) && SameWaits(m, t)
    ensures Slept(s, t, p)
  {
  }

  lemma StayFairTo(s: Sched, p: Pid)
    requires Steady(s)
    ensures FairTo(s, s, p)
  {
    hide Queued, NoneBefore, Fair;
    ShapeLists(s);
    SameFair(s, s);
  }

  lemma YieldFairTo(s: Sched, p: Pid)
    requires Steady(s)
    ensures FairTo(s, Switch(s), p)
  {
    hide Queued, NoneBefore, Fair, Switch, SameWaits, Slept;
    YieldFair(s);
    YieldSteady(s);
    StayFairTo(s, p);
    SleptOn(s, s, Switch(s), p);
  }

  lemma BlockFairTo(s: Sched, kind: Kind)
    requires Steady(s) && s.running.value != NULL_PID && kind != ReadyQ
    ensures FairTo(s, BlockRunning(s, kind), s.running.value)
  {
    hide Queued, NoneBefore, Fair, BlockRunning, SameWaits;
    BlockFair(s, kind);
    BlockSteady(s, kind);
    SleptOn(s, SetState(s, s.running.value, Blocking(kind)), BlockRunning(s, kind), s.running.value);
  }

  lemma ExitFairTo(s: Sched, p: Pid)
    requires Steady(s) && s.running.value != NULL_PID
    ensures FairTo(s, Terminate(s), p)
  {
    hide Queued, NoneBefore, Fair, Switch, SameWaits;
    ExitFair(s);
    TerminateSteady(s);
    SleptOn(s, s.(running := None, procs := s.procs - {s.running.value}), Terminate(s), p);
  }

  lemma ReleaseFairTo(s: Sched, p: Pid)
    requires Steady(s)
    ensures FairTo(s, UnblockType(s, MemQ), p)
  {
    hide Queued, NoneBefore, Fair, UnblockType, SameWaits;
    ReleaseFair(s, MemQ);
    UnblockTypeSteady(s, MemQ);
    if First(s, MemQ) < LEVELS {
      SleptOn(s, SetState(s, Pop(s, MemQ).1, Ready), UnblockType(s, MemQ), p);
    }
  }

  lemma SendFairTo(s: Sched, p: Pid, pid: Pid)
    requires Steady(s)
    ensures FairTo(s, UnblockPid(s, pid, true), p)
  {
    hide Queued, NoneBefore, Fair, UnblockPid, Wake, SameWaits;
    SendFair(s, pid);
    WakeShape(s, pid);
    UnblockPidSteady(s, pid);
    SleptOn(s, Wake(s, pid), UnblockPid(s, pid, true), p);
  }

  lemma TickFairTo(s: Sched, p: Pid, pids: seq<Pid>)
    requires Steady(s)
    ensures FairTo(s, WakeMany(s, pids), p)
  {
    hide Queued, NoneBefore, Fair, WakeMany, WakeAll, SameWaits;
    TickFair(s, pids);
    WakeAllShape(s, pids);
    WakeManySteady(s, pids);
    SleptOn(s, WakeAll(s, pids), WakeMany(s, pids), p);
  }

  lemma SetFairTo(s: Sched, pid: int, priority: int)
    requires Steady(s)
    ensures FairTo(s, SetPriority(s, pid, priority).0, if pid > 0 then pid else s.running.value)
  {
    hide Queued, NoneBefore, Fair, SetPriority, SameWaits;
    var p := if pid > 0 then pid else s.running.value;
    SetFair(s, pid, priority);
    SetPrioritySteady(s, pid, priority);
    StayFairTo(s, p);
    if SetPriority(s, pid, priority).1 == 0 {
      SleptOn(s, SetLevel(s, pid, priority), SetPriority(s, pid, priority).0, p);
    }
  }

  // Every step is fair, and at most one process goes to sleep in it.
  lemma FairStep(w: World, step: Step) returns (p: Pid)
    requires Core(w) && Enabled(w, step)
    ensures FairTo(w.k.sched, Effect(w, step).k.sched, p)
  {
    hide BlocksOk, PcOk, FairTo, Shape, Idle, NoneBefore, BlockRunning, UnblockType, UnblockPid, WakeMany, SetPriority,
      Switch, Terminate;
    var s := w.k.sched;
    p := w.k.Current();
    StayFairTo(s, p);
    match step
    case Request => BlockFairTo(s, MemQ);
    case Receive => BlockFairTo(s, MsgQ);
    case Release(ptr) => ReleaseFairTo(s, p);
    case Send(pid, ptr) => SendFairTo(s, p, pid);
    case Tick => TickFairTo(s, p, Receivers(w.k, SweptAt(w.k).moved));
    case Reprioritize(pid, priority) =>
      SetFairTo(s, pid, priority);
      p := if pid > 0 then pid else p;
    case Yield => YieldFairTo(s, p);
    case Exit => ExitFairTo(s, p);
    case _ =>
  }

  lemma WaitedStep(w: World, step: Step)
    requires Core(w) && Enabled(w, step) && Waited(w)
    ensures Waited(Do(w, step))
  {
    hide BlocksOk, PcOk, InOrder, Steady, Shape, Fair, Slept, Effect;
    var p := FairStep(w, step);
    Recorded(w.k.sched, Effect(w, step).k.sched, w.h, p);
    SameStamps(w, step);
  }

  lemma SameStamps(w: World, step: Step)
    requires Enabled(w, step)
    ensures Effect(w, step).h.since == w.h.since && Effect(w, step).h.clock == w.h.clock
  {
  }

  // ---------- who is served ----------

  // The head of the best level of a family has the best priority there and, among its
  // equals, joined first.
  lemma HeadIsOldest(s: Sched, since: map<Pid, nat>, kind: Kind, p: Pid)
    requires Steady(s) && InOrder(s, since) && First(s, kind) < LEVELS
    requires p in s.procs && p !in Outside(s) && KindOf(s.procs[p].state) == kind
    ensures var head := Pop(s, kind).1;
      && head in s.procs && s.procs[head].priority == First(s, kind) <= s.procs[p].priority
      && (p != head && s.procs[p].priority == First(s, kind) ==>
            p in since && head in since && since[head] + Apart(kind) <= since[p])
  {
    hide NoneBefore;
    var l := First(s, kind);
    var q := s.Q(Slot(kind, l));
    PopShape(s, Outside(s), kind);
    assert AtHome(s, p);
    if s.procs[p].priority == l {
      assert Oldest(q, since, Apart(kind)) && p in q;
      var i :| 0 <= i < |q| && q[i] == p;
      assert q[0] in q && (i > 0 ==> since[q[0]] + Apart(kind) <= since[q[i]]);
    }
  }

  // The process a release wakes has a priority no other sleeper beats, and among
  // the sleepers of that priority it has waited longest.
  lemma LongestWaiter(w: World, ptr: Addr, p: Pid)
    requires Core(w) && Waited(w) && GiveCode(w.k.alloc, ptr, w.k.Current()) == 0
    requires First(w.k.sched, MemQ) < LEVELS && p in w.k.sched.procs && w.k.sched.procs[p].state == BlockedMem
    ensures var s, s', since, woken := w.k.sched, DoRelease(w, ptr).k.sched, w.h.since, Pop(w.k.sched, MemQ).1;
      && woken in s.procs && s.procs[woken].state == BlockedMem
      && woken in s'.procs && s'.procs[woken].state == Ready
      && (p != woken ==>
            || s.procs[woken].priority < s.procs[p].priority
            || (s.procs[woken].priority == s.procs[p].priority
                && p in since && woken in since && since[woken] < since[p]))
  {
    hide BlocksOk, PcOk, NoneBefore, Queued, UnblockType, InOrder, FirstFrom;
    UnblockTypeSteady(w.k.sched, MemQ);
    HeadIsOldest(w.k.sched, w.h.since, MemQ, p);
  }

  // The running process gives up the processor of its own accord: it sleeps, ends, or
  // yields while somebody else is ready at its level.
  predicate GivesUp(w: World, step: Step)
    requires Enabled(w, step)
  {
    match step
    case Request => w.k.alloc.free == []
    case Receive => FirstIndex(w.k.mailbox, w.k.For(w.k.Current())) == |w.k.mailbox|
    case Yield => w.k.sched.Q(Slot(ReadyQ, w.k.sched.procs[w.k.Current()].priority)) != []
    case Exit => true
    case _ => false
  }

  // The next process then has a priority no other ready process beats, and among the
  // ready processes of that priority it has been ready longest.
  lemma LongestReady(w: World, step: Step, p: Pid)
    requires Core(w) && Waited(w) && Enabled(w, step) && GivesUp(w, step)
    requires p in w.k.sched.procs && p !in Outside(w.k.sched) && KindOf(w.k.sched.procs[p].state) == ReadyQ
    ensures var s, since, next := w.k.sched, w.h.since, Effect(w, step).k.Current();
      && next in s.procs && KindOf(s.procs[next].state) == ReadyQ
      && (p != next ==>
            || s.procs[next].priority < s.procs[p].priority
            || (s.procs[next].priority == s.procs[p].priority
                && p in since && next in since && since[next] <= since[p]))
  {
    hide BlocksOk, PcOk, Queued, InOrder, BlockRunning, Switch;
    var s := w.k.sched;
    match step {
      case Request => BlockRunsNext(s, MemQ);
      case Receive => BlockRunsNext(s, MsgQ);
      case Exit => ExitRunsNext(s);
      case Yield => YieldRunsNext(s);
    }
    PopShape(s, Outside(s), ReadyQ);
    HeadIsOldest(s, w.h.since, ReadyQ, p);
  }

  lemma YieldRunsNext(s: Sched)
    requires Steady(s) && s.Q(Slot(ReadyQ, s.procs[s.running.value].priority)) != []
    ensures First(s, ReadyQ) < LEVELS && Switch(s).running == Some(Pop(s, ReadyQ).1)
  {
    var l := s.procs[s.running.value].priority;
    var t := Enqueue(s, ReadyQ, s.running.value);
    assert First(s, ReadyQ) == l && First(t, ReadyQ) == l;
  }
}
