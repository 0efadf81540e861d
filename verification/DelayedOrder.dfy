// When and in which order delayed messages reach the mailbox.
module DelayedOrder {
  import opened Rtx
  import opened Seqs
  import opened Envelope
  import opened SchedSpec
  import opened AllocSpec
  import opened SweepSpec
  import opened KernelSpec
  import opened Runs
  import opened Safety
  import opened Delivery

  // The tick at which a delayed message is due: no tick is earlier than the one
  // after the call.
  function Key(x: Issue): nat {
    var t := SendTime(x.msg.block);
    if t > x.tick + 1 then t else x.tick + 1
  }

  function Later(t: nat): Issue -> bool {
    (x: Issue) => Key(x) > t
  }

  function At(t: nat): Issue -> bool {
    (x: Issue) => Key(x) == t
  }

  // The issued messages due by tick t: by key, and by order of issue within a key.
  function Buckets(issued: seq<Issue>, t: nat): seq<Issue> {
    if t == 0 then [] else Buckets(issued, t - 1) + Filter(issued, At(t))
  }

  function MsgsOf(q: seq<Issue>): seq<Msg> {
    seq(|q|, i requires 0 <= i < |q| => q[i].msg)
  }

  // While no tick passed over a due message and time did not wrap, the delayed
  // mailbox holds what is not due yet, in order of issue, and the moves were made
  // in the order of the buckets.
  ghost predicate InDueOrder(w: World) {
    w.h.punctual ==>
      && (forall x | x in w.h.issued :: x.tick <= w.k.ticks)
      && Msgs(w.k.alloc, w.k.delayed) == MsgsOf(Filter(w.h.issued, Later(w.k.ticks)))
      && w.h.matured == MsgsOf(Buckets(w.h.issued, w.k.ticks))
  }

  // ---------- Buckets is the stable sort by key ----------

  lemma {:induction false} BucketsSorted(issued: seq<Issue>, t: nat)
    ensures forall x | x in Buckets(issued, t) :: Key(x) <= t
    ensures forall i, j | 0 <= i < j < |Buckets(issued, t)| :: Key(Buckets(issued, t)[i]) <= Key(Buckets(issued, t)[j])
  {
    if t > 0 {
      hide Key;
      BucketsSorted(issued, t - 1);
      var front, last := Buckets(issued, t - 1), Filter(issued, At(t));
      FilterMembers(issued, At(t));
      assert forall x | x in last :: At(t)(x);
      var b := front + last;
      forall i, j | 0 <= i < j < |b|
        ensures Key(b[i]) <= Key(b[j])
      {
        assert b[i] in (if i < |front| then front else last);
        assert b[j] in (if j < |front| then front else last);
      }
    }
  }

  // Each key keeps its messages, in the order they were issued.
  lemma {:induction false} BucketsStable(issued: seq<Issue>, t: nat, c: nat)
    requires 0 < c <= t
    ensures Filter(Buckets(issued, t), At(c)) == Filter(issued, At(c))
  {
    hide Key;
    FilterConcat(Buckets(issued, t - 1), Filter(issued, At(t)), At(c));
    FilterMembers(issued, At(t));
    if c == t {
      BucketsSorted(issued, t - 1);
      FilterNone(Buckets(issued, t - 1), At(c));
      FilterFilter(issued, At(t), At(t));
      FilterAgree(issued, Both(At(t), At(t)), At(t));
    } else {
      BucketsStable(issued, t - 1, c);
      assert forall x | x in Filter(issued, At(t)) :: At(t)(x) && !At(c)(x);
      FilterNone(Filter(issued, At(t)), At(c));
    }
  }

  lemma {:induction false} BucketsAppend(issued: seq<Issue>, x: Issue, t: nat)
    requires Key(x) > t
    ensures Buckets(issued + [x], t) == Buckets(issued, t)
  {
    if t > 0 {
      BucketsAppend(issued, x, t - 1);
      FilterConcat(issued, [x], At(t));
    }
  }

  // ---------- every step keeps the order ----------

  function DueMsg(t: nat): Msg -> bool {
    (m: Msg) => SendTime(m.block) <= t
  }

  function DueIssue(t: nat): Issue -> bool {
    (x: Issue) => SendTime(x.msg.block) <= t
  }

  lemma {:induction false} MsgsFilter(a: Alloc, q: seq<Addr>, p: Addr -> bool, p': Msg -> bool)
    requires forall ptr | ptr in q :: p(ptr) == p'(MsgAt(a, ptr))
    ensures Msgs(a, Filter(q, p)) == Filter(Msgs(a, q), p')
  {
    if q != [] {
      MsgsFilter(a, q[1..], p, p');
      assert Msgs(a, q)[1..] == Msgs(a, q[1..]);
      assert q[0] in q && Msgs(a, q)[0] == MsgAt(a, q[0]);
      if p(q[0]) {
        assert Msgs(a, [q[0]] + Filter(q[1..], p)) == [MsgAt(a, q[0])] + Msgs(a, Filter(q[1..], p));
      }
    }
  }

  lemma {:induction false} MsgsOfFilter(q: seq<Issue>, p: Issue -> bool, p': Msg -> bool)
    requires forall x | x in q :: p(x) == p'(x.msg)
    ensures MsgsOf(Filter(q, p)) == Filter(MsgsOf(q), p')
  {
    if q != [] {
      MsgsOfFilter(q[1..], p, p');
      assert MsgsOf(q)[1..] == MsgsOf(q[1..]);
      assert q[0] in q && MsgsOf(q)[0] == q[0].msg;
      if p(q[0]) {
        assert MsgsOf([q[0]] + Filter(q[1..], p)) == [q[0].msg] + MsgsOf(Filter(q[1..], p));
      }
    }
  }

  // Among the messages not due at t, those a filter on send times selects.
  lemma SplitDue(issued: seq<Issue>, t: nat)
    requires forall x | x in issued :: x.tick <= t
    ensures var waiting := MsgsOf(Filter(issued, Later(t)));
      && Filter(waiting, DueMsg(t + 1)) == MsgsOf(Filter(issued, At(t + 1)))
      && Filter(waiting, Not(DueMsg(t + 1))) == MsgsOf(Filter(issued, Later(t + 1)))
  {
    hide SendTime;
    var later := Filter(issued, Later(t));
    MsgsOfFilter(later, DueIssue(t + 1), DueMsg(t + 1));
    MsgsOfFilter(later, Not(DueIssue(t + 1)), Not(DueMsg(t + 1)));
    FilterFilter(issued, Later(t), DueIssue(t + 1));
    FilterFilter(issued, Later(t), Not(DueIssue(t + 1)));
    FilterAgree(issued, Both(Later(t), DueIssue(t + 1)), At(t + 1));
    FilterAgree(issued, Both(Later(t), Not(DueIssue(t + 1))), Later(t + 1));
  }

  lemma TickOrder(w: World)
    requires InDueOrder(w)
    ensures InDueOrder(DoTick(w))
  {
    hide SendTime, Key, Filter, WakeMany, Sweep, Skips;
    var v, k, now := DoTick(w), w.k, w.k.ticks + 1;
    if v.h.punctual {
      var due := k.Due(now);
      SweepExact(k.delayed, due, k.cap);
      assert SweptAt(k).moved == Filter(k.delayed, due) && SweptAt(k).kept == Filter(k.delayed, Not<Addr>(due));
      MsgsFilter(k.alloc, k.delayed, due, DueMsg(now));
      MsgsFilter(k.alloc, k.delayed, Not<Addr>(due), Not(DueMsg(now)));
      SplitDue(w.h.issued, k.ticks);
      assert MsgsOf(Buckets(w.h.issued, now)) == w.h.matured + MsgsOf(Filter(w.h.issued, At(now)));
    }
  }

  lemma DelayedSendOrder(w: World, pid: Pid, ptr: Addr, delay: nat)
    requires BlocksOk(w.k, w.h.place) && InDueOrder(w) && ptr in w.h.place && w.h.place[ptr].Held?
    requires pid < WORD && w.k.Current() < WORD && SendCode(w.k, pid, ptr) == 0
    ensures InDueOrder(DoDelayedSend(w, pid, ptr, delay))
  {
    hide SendTime, Filter, Stamped, OwnersOk, Rx, Buckets;
    var v, t := DoDelayedSend(w, pid, ptr, delay), w.k.ticks;
    if v.h.punctual {
      var x := Issue(MsgAt(v.k.alloc, ptr), t);
      StampedFields(w.k.alloc.Mem(ptr), pid, w.k.Current(), delay + t);
      Room(w.k, w.h.place);
      MsgsSame(w.k.alloc, v.k.alloc, w.k.delayed);
      assert Msgs(v.k.alloc, v.k.delayed) == Msgs(w.k.alloc, w.k.delayed) + [x.msg];
      LaterAppend(w.h.issued, x, t);
      BucketsAppend(w.h.issued, x, t);
    }
  }

  lemma LaterAppend(issued: seq<Issue>, x: Issue, t: nat)
    requires Key(x) > t
    ensures MsgsOf(Filter(issued + [x], Later(t))) == MsgsOf(Filter(issued, Later(t))) + [x.msg]
  {
    hide Key;
    FilterConcat(issued, [x], Later(t));
    assert Filter([x], Later(t)) == [x];
  }

  lemma QuietOrder(w: World, step: Step)
    requires BlocksOk(w.k, w.h.place) && Enabled(w, step) && InDueOrder(w)
    requires !step.DelayedSend? && !step.Tick?
    ensures InDueOrder(Effect(w, step))
  {
    hide Filter, OwnersOk, Rx, Buckets, Addressed, SetPriority, UnblockType, UnblockPid, BlockRunning, Switch;
    MsgsSame(w.k.alloc, Effect(w, step).k.alloc, w.k.delayed);
  }

  lemma InDueOrderStep(w: World, step: Step)
    requires BlocksOk(w.k, w.h.place) && Enabled(w, step) && InDueOrder(w)
    ensures InDueOrder(Do(w, step))
  {
    hide BlocksOk, Filter, Buckets, Key;
    match step
    case DelayedSend(pid, ptr, delay) =>
      if SendCode(w.k, pid, ptr) == 0 { DelayedSendOrder(w, pid, ptr, delay); }
    case Tick => TickOrder(w);
    case _ => QuietOrder(w, step);
  }

  // The moves so far are the stable sort by key of the messages due so far.
  lemma MovedInDueOrder(w: World)
    requires InDueOrder(w) && w.h.punctual
    ensures exists b: seq<Issue> ::
      && w.h.matured == MsgsOf(b)
      && (forall i, j | 0 <= i < j < |b| :: Key(b[i]) <= Key(b[j]))
      && (forall c | 0 < c <= w.k.ticks :: Filter(b, At(c)) == Filter(w.h.issued, At(c)))
      && (forall x | x in b :: 0 < Key(x) <= w.k.ticks)
  {
    hide Key, Filter;
    var b := Buckets(w.h.issued, w.k.ticks);
    BucketsSorted(w.h.issued, w.k.ticks);
    forall c | 0 < c <= w.k.ticks ensures Filter(b, At(c)) == Filter(w.h.issued, At(c)) {
      BucketsStable(w.h.issued, w.k.ticks, c);
    }
    forall x | x in b ensures Key(x) > 0 {
      KeyPositive(x);
    }
  }

  lemma KeyPositive(x: Issue)
    ensures Key(x) > 0
  {
  }

  // ---------- timing ----------

  // A message leaves the delayed mailbox only at a tick, not before its time, and
  // it is then in the mailbox.
  lemma NeverEarly(w: World, step: Step, ptr: Addr)
    requires BlocksOk(w.k, w.h.place) && Enabled(w, step)
    requires ptr in w.k.delayed && ptr !in Do(w, step).k.delayed
    ensures step.Tick? && SendTime(w.k.alloc.Mem(ptr)) <= Do(w, step).k.ticks && ptr in Do(w, step).k.mailbox
  {
    hide Filter, OwnersOk, Rx, Sweep, Stamped, Addressed, SetPriority, UnblockType, UnblockPid,
      BlockRunning, Switch, SendTime;
    if step.Tick? {
      SweptMembers(w.k, w.h.place);
      var i :| 0 <= i < |w.k.delayed| && w.k.delayed[i] == ptr;
      SweepEntry(w.k.delayed, w.k.Due((w.k.ticks + 1) % WORD), w.k.cap, i);
    }
  }

  // At a tick that passes over nobody every due message moves.
  lemma OnTime(w: World, ptr: Addr)
    requires ptr in w.k.delayed && w.k.Due((w.k.ticks + 1) % WORD)(ptr)
    requires !Skips(w.k.delayed, w.k.Due((w.k.ticks + 1) % WORD), w.k.cap)
    ensures ptr !in DoTick(w).k.delayed && ptr in DoTick(w).k.mailbox
  {
    hide Filter, Skips, Sweep, SendTime, WakeMany;
    var due := w.k.Due((w.k.ticks + 1) % WORD);
    SweepExact(w.k.delayed, due, w.k.cap);
    FilterMembers(w.k.delayed, due);
    FilterMembers(w.k.delayed, Not<Addr>(due));
  }

  function Ticks(steps: seq<Step>): nat {
    if steps == [] then 0 else (if steps[0].Tick? then 1 else 0) + Ticks(steps[1..])
  }

  // At some moment of the run ptr is not in the delayed mailbox.
  ghost predicate Departs(w: World, steps: seq<Step>, ptr: Addr)
    requires Legal(w, steps)
    decreases |steps|
  {
    ptr !in w.k.delayed || (steps != [] && Departs(Do(w, steps[0]), steps[1..], ptr))
  }

  // A due message either leaves, or keeps its bytes and comes one slot closer to
  // the front at every tick.
  lemma Advances(w: World, step: Step, x: nat)
    requires BlocksOk(w.k, w.h.place) && Enabled(w, step) && x < |w.k.delayed| && w.k.ticks + 1 < WORD
    requires SendTime(w.k.alloc.Mem(w.k.delayed[x])) <= w.k.ticks + 1
    ensures var ptr, v := w.k.delayed[x], Do(w, step);
      || ptr !in v.k.delayed
      || (&& v.k.alloc.Mem(ptr) == w.k.alloc.Mem(ptr) && w.k.ticks <= v.k.ticks
          && if step.Tick? then 0 < x && x - 1 < |v.k.delayed| && v.k.delayed[x - 1] == ptr
             else x < |v.k.delayed| && v.k.delayed[x] == ptr && v.k.ticks == w.k.ticks)
  {
    hide SendTime, BlocksOk;
    if step.Tick? {
      TickAdvances(w, x);
    } else {
      OtherKeeps(w, step, x);
    }
  }

  lemma TickAdvances(w: World, x: nat)
    requires BlocksOk(w.k, w.h.place) && x < |w.k.delayed| && w.k.ticks + 1 < WORD
    requires SendTime(w.k.alloc.Mem(w.k.delayed[x])) <= w.k.ticks + 1
    ensures var ptr, k := w.k.delayed[x], DoTick(w).k;
      || ptr !in k.delayed
      || (0 < x && x - 1 < |k.delayed| && k.delayed[x - 1] == ptr)
    ensures DoTick(w).k.alloc == w.k.alloc && DoTick(w).k.ticks == w.k.ticks + 1
  {
    hide Sweep, SendTime, WakeMany, BlocksOk;
    var due := w.k.Due(w.k.ticks + 1);
    SweptMembers(w.k, w.h.place);
    SweepEntry(w.k.delayed, due, w.k.cap, x);
    assert SweptAt(w.k) == Sweep(w.k.delayed, due, w.k.cap);
    assert due(w.k.delayed[x]);
  }

  lemma OtherKeeps(w: World, step: Step, x: nat)
    requires BlocksOk(w.k, w.h.place) && Enabled(w, step) && !step.Tick? && x < |w.k.delayed|
    ensures var ptr, k := w.k.delayed[x], Effect(w, step).k;
      && k.alloc.Mem(ptr) == w.k.alloc.Mem(ptr) && k.ticks == w.k.ticks
      && x < |k.delayed| && k.delayed[x] == ptr
  {
    hide OwnersOk, Stamped, Addressed, SetPriority, UnblockType, UnblockPid, BlockRunning, Switch;
    assert w.k.delayed[x] in w.k.delayed;
  }

  // Even when ticks pass over messages, one that is due at the next tick is gone
  // after at most (its index + 1) ticks.
  lemma {:induction false} Deadline(w: World, steps: seq<Step>, x: nat)
    requires Core(w) && Legal(w, steps) && x < |w.k.delayed|
    requires w.k.ticks + Ticks(steps) < WORD && x < Ticks(steps)
    requires SendTime(w.k.alloc.Mem(w.k.delayed[x])) <= w.k.ticks + 1
    ensures Departs(w, steps, w.k.delayed[x])
    decreases |steps|
  {
    hide BlocksOk, SendTime, Steady, PcOk;
    var ptr, v := w.k.delayed[x], Do(w, steps[0]);
    CoreStep(w, steps[0]);
    Advances(w, steps[0], x);
    if ptr in v.k.delayed {
      TickCounts(w, steps[0]);
      Deadline(v, steps[1..], if steps[0].Tick? then x - 1 else x);
    }
  }

  lemma TickCounts(w: World, step: Step)
    requires Enabled(w, step) && w.k.ticks + 1 < WORD
    ensures Do(w, step).k.ticks == w.k.ticks + (if step.Tick? then 1 else 0)
  {
    hide SendTime, Filter, Sweep, SetPriority, UnblockType, UnblockPid, BlockRunning, Switch, Stamped, Addressed;
  }
}
