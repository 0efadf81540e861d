// Messages: nobody sleeps beside a message of its own, and each receiver gets
// exactly the messages that entered the mailbox for it, in order and unchanged.
module Delivery {
  import opened Rtx
  import opened Seqs
  import opened Envelope
  import opened SchedSpec
  import opened AllocSpec
  import opened SweepSpec
  import opened KernelSpec
  import opened Runs

  // ---------- no lost message wake-up ----------

  ghost predicate NoLostMail(k: Kernel) {
    forall p, ptr | p in k.sched.procs && k.sched.procs[p].state == BlockedMsg && ptr in k.mailbox ::
      Rx(k.alloc.Mem(ptr)) != p
  }

  ghost predicate NoNewWaiters(s: Sched, s': Sched) {
    forall p | p in s'.procs && s'.procs[p].state == BlockedMsg :: p in s.procs && s.procs[p].state == BlockedMsg
  }

  // Nobody goes to sleep and no message arrives.
  lemma QuietStep(k: Kernel, k': Kernel)
    requires NoLostMail(k) && NoNewWaiters(k.sched, k'.sched)
    requires forall ptr | ptr in k'.mailbox :: ptr in k.mailbox && k'.alloc.Mem(ptr) == k.alloc.Mem(ptr)
    ensures NoLostMail(k')
  {
  }

  lemma RequestMail(k: Kernel)
    requires Steady(k.sched) && k.sched.running.value != NULL_PID && NoLostMail(k)
    ensures NoLostMail(KernelSpec.Request(k).0)
  {
    hide Queued, NoneBefore, BlockRunning;
    BlockSteady(k.sched, MemQ);
    QuietStep(k, KernelSpec.Request(k).0);
  }

  lemma ReceiveMail(k: Kernel)
    requires Steady(k.sched) && k.sched.running.value != NULL_PID && NoLostMail(k)
    ensures NoLostMail(KernelSpec.Receive(k).0)
  {
    hide Queued, NoneBefore, BlockRunning;
    var i := FirstIndex(k.mailbox, k.For(k.Current()));
    if i == |k.mailbox| {
      BlockSteady(k.sched, MsgQ);
      forall ptr | ptr in k.mailbox
        ensures Rx(k.alloc.Mem(ptr)) != k.Current()
      {
        var j :| 0 <= j < |k.mailbox| && k.mailbox[j] == ptr;
        assert !k.For(k.Current())(k.mailbox[j]);
      }
    } else {
      QuietStep(k, KernelSpec.Receive(k).0);
    }
  }

  lemma SendMail(k: Kernel, place: map<Addr, Place>, pid: Pid, ptr: Addr)
    requires Steady(k.sched) && BlocksOk(k, place) && NoLostMail(k)
    requires ptr in place && place[ptr].Held? && pid < WORD && k.Current() < WORD && SendCode(k, pid, ptr) == 0
    ensures NoLostMail(KernelSpec.Send(k, pid, ptr).0)
  {
    hide Queued, NoneBefore, Idle, UnblockPid, Addressed, OwnersOk, Rx, Wake;
    AddressedFields(k.alloc.Mem(ptr), pid, k.Current());
    WakeShape(k.sched, pid);
    UnblockPidSteady(k.sched, pid);
    var t := KernelSpec.Send(k, pid, ptr).0;
    assert NoNewWaiters(k.sched, t.sched);
    assert t.sched.procs[pid].state != BlockedMsg;
    assert forall p | p in k.mailbox :: t.alloc.Mem(p) == k.alloc.Mem(p);
  }

  lemma TickMail(k: Kernel, place: map<Addr, Place>)
    requires Steady(k.sched) && BlocksOk(k, place) && NoLostMail(k)
    ensures NoLostMail(KernelSpec.Tick(k))
  {
    hide Queued, NoneBefore, WakeMany, WakeAll, BestWoken, Sweep, Rx, BlocksOk;
    var moved, t := SweptAt(k).moved, KernelSpec.Tick(k);
    var pids := Receivers(k, moved);
    WakeAllShape(k.sched, pids);
    WakeManySteady(k.sched, pids);
    assert t.sched == WakeMany(k.sched, pids) && t.mailbox == k.mailbox + moved;
    forall p, ptr | p in t.sched.procs && t.sched.procs[p].state == BlockedMsg && ptr in t.mailbox
      ensures Rx(t.alloc.Mem(ptr)) != p
    {
      if ptr in moved {
        var i :| 0 <= i < |moved| && moved[i] == ptr;
        assert pids[i] == Rx(k.alloc.Mem(ptr));
      }
    }
  }

  lemma PriorityWaiters(s: Sched, pid: int, priority: int)
    requires Steady(s)
    ensures NoNewWaiters(s, SetPriority(s, pid, priority).0)
  {
    hide Steady;
    SetPrioritySteady(s, pid, priority);
  }

  lemma SchedMail(w: World, step: Step)
    requires Core(w) && Enabled(w, step) && NoLostMail(w.k) && (step.Reprioritize? || step.Yield? || step.Exit?)
    ensures NoLostMail(Effect(w, step).k)
  {
    hide Queued, NoneBefore, BlocksOk, PcOk, SetPriority, Switch, NoLostMail;
    match step {
      case Reprioritize(pid, priority) => PriorityWaiters(w.k.sched, pid, priority);
      case Yield => YieldSteady(w.k.sched);
      case _ => TerminateSteady(w.k.sched);
    }
    QuietStep(w.k, Effect(w, step).k);
  }

  lemma ReleaseMail(w: World, ptr: Addr)
    requires Core(w) && Enabled(w, Release(ptr)) && NoLostMail(w.k)
    ensures NoLostMail(DoRelease(w, ptr).k)
  {
    hide Queued, NoneBefore, Idle, PcOk, OwnersOk, Rx, UnblockType, NoLostMail;
    UnblockTypeSteady(w.k.sched, MemQ);
    QuietStep(w.k, DoRelease(w, ptr).k);
  }

  lemma BlockMail(w: World, step: Step)
    requires BlocksOk(w.k, w.h.place) && Enabled(w, step) && NoLostMail(w.k) && (step.DelayedSend? || step.Write?)
    ensures NoLostMail(Effect(w, step).k)
  {
    hide OwnersOk, Rx, Stamped, NoLostMail;
    QuietStep(w.k, Effect(w, step).k);
  }

  // A process in the message-blocked queues has no message in the mailbox.
  lemma NoLostMailStep(w: World, step: Step)
    requires Core(w) && Enabled(w, step) && NoLostMail(w.k)
    ensures NoLostMail(Do(w, step).k)
  {
    hide BlocksOk, PcOk, NoLostMail, Queued, NoneBefore;
    match step
    case Request => RequestMail(w.k);
    case Receive => ReceiveMail(w.k);
    case Send(pid, ptr) =>
      if SendCode(w.k, pid, ptr) == 0 { SendMail(w.k, w.h.place, pid, ptr); }
    case Tick => TickMail(w.k, w.h.place);
    case Release(ptr) => ReleaseMail(w, ptr);
    case Reprioritize(_, _) => SchedMail(w, step);
    case Yield => SchedMail(w, step);
    case Exit => SchedMail(w, step);
    case _ => BlockMail(w, step);
  }

  // ---------- exactly-once delivery in order ----------

  function To(p: Pid): Msg -> bool {
    (m: Msg) => Rx(m.block) == p
  }

  // What p has been handed, in order.
  function Handed(received: seq<Delivery>, p: Pid): seq<Msg> {
    if received == [] then [] else
      var last := received[|received| - 1];
      Handed(received[..|received| - 1], p) + (if last.to == p then [last.msg] else [])
  }

  function InMailbox(k: Kernel): seq<Msg> {
    Msgs(k.alloc, k.mailbox)
  }

  // What entered the mailbox for p is what p was handed, then what still waits.
  ghost predicate Fifo(w: World, p: Pid) {
    Filter(w.h.entered, To(p)) == Handed(w.h.received, p) + Filter(InMailbox(w.k), To(p))
  }

  lemma MsgsSame(a: Alloc, a': Alloc, q: seq<Addr>)
    requires forall ptr | ptr in q :: a'.Mem(ptr) == a.Mem(ptr)
    ensures Msgs(a', q) == Msgs(a, q)
  {
  }

  lemma SendFifo(w: World, pid: Pid, ptr: Addr, p: Pid)
    requires BlocksOk(w.k, w.h.place) && Fifo(w, p) && ptr in w.h.place && w.h.place[ptr].Held?
    requires pid < WORD && w.k.Current() < WORD && SendCode(w.k, pid, ptr) == 0
    ensures Fifo(DoSend(w, pid, ptr), p)
  {
    hide OwnersOk, Addressed, Filter, Rx, UnblockPid;
    var v := DoSend(w, pid, ptr);
    Room(w.k, w.h.place);
    MsgsSame(w.k.alloc, v.k.alloc, w.k.mailbox);
    var m := MsgAt(v.k.alloc, ptr);
    assert InMailbox(v.k) == InMailbox(w.k) + [m];
    FilterConcat(InMailbox(w.k), [m], To(p));
    FilterConcat(w.h.entered, [m], To(p));
  }

  lemma TickFifo(w: World, p: Pid)
    requires Fifo(w, p)
    ensures Fifo(DoTick(w), p)
  {
    hide Filter, Sweep, WakeMany, Rx;
    var moved := SweptAt(w.k).moved;
    var ms := Msgs(w.k.alloc, moved);
    assert InMailbox(DoTick(w).k) == InMailbox(w.k) + ms;
    FilterConcat(InMailbox(w.k), ms, To(p));
    FilterConcat(w.h.entered, ms, To(p));
  }

  // The scan stops at the first message to the receiver.
  lemma FirstMessage(k: Kernel, r: Pid)
    requires FirstIndex(k.mailbox, k.For(r)) < |k.mailbox|
    ensures var q, i := InMailbox(k), FirstIndex(k.mailbox, k.For(r));
      && q[i] == MsgAt(k.alloc, k.mailbox[i]) && Rx(q[i].block) == r
      && (forall j | 0 <= j < i :: Rx(q[j].block) != r)
      && Msgs(k.alloc, Drop(k.mailbox, i)) == Drop(q, i)
  {
    hide Rx;
    var q, i := InMailbox(k), FirstIndex(k.mailbox, k.For(r));
    assert k.For(r)(k.mailbox[i]);
    forall j | 0 <= j < i ensures Rx(q[j].block) != r {
      assert !k.For(r)(k.mailbox[j]);
    }
  }

  lemma HandedMore(received: seq<Delivery>, d: Delivery, p: Pid)
    ensures Handed(received + [d], p) == if d.to == p then Handed(received, p) + [d.msg] else Handed(received, p)
  {
    assert (received + [d])[..|received|] == received;
  }

  // Handing over the first message of the mailbox for its receiver.
  lemma HandOver(entered: seq<Msg>, received: seq<Delivery>, q: seq<Msg>, i: nat, r: Pid, p: Pid)
    requires i < |q| && Rx(q[i].block) == r && forall j | 0 <= j < i :: Rx(q[j].block) != r
    requires Filter(entered, To(p)) == Handed(received, p) + Filter(q, To(p))
    ensures Filter(entered, To(p)) == Handed(received + [Delivery(r, q[i])], p) + Filter(Drop(q, i), To(p))
  {
    hide Filter, Rx, Handed, Drop;
    FilterDrop(q, i, To(p));
    HandedMore(received, Delivery(r, q[i]), p);
    if p == r {
      Regroup(Handed(received, p), [q[i]], Filter(Drop(q, i), To(p)));
    }
  }

  lemma Regroup(a: seq<Msg>, b: seq<Msg>, c: seq<Msg>)
    ensures a + (b + c) == a + b + c
  {
  }

  lemma ReceiveFifo(w: World, p: Pid)
    requires Enabled(w, Receive) && Fifo(w, p)
    ensures Fifo(DoReceive(w), p)
  {
    hide Filter, Handed, Rx, BlockRunning, FirstIndex, Msgs, Drop;
    var r := w.k.Current();
    var i := FirstIndex(w.k.mailbox, w.k.For(r));
    if i < |w.k.mailbox| {
      FirstMessage(w.k, r);
      MsgsLength(w.k);
      HandOver(w.h.entered, w.h.received, InMailbox(w.k), i, r, p);
    }
  }

  lemma MsgsLength(k: Kernel)
    ensures |InMailbox(k)| == |k.mailbox|
  {
  }

  lemma QuietFifo(w: World, step: Step, p: Pid)
    requires BlocksOk(w.k, w.h.place) && Enabled(w, step) && Fifo(w, p)
    requires !step.Send? && !step.Tick? && !step.Receive?
    ensures Fifo(Effect(w, step), p)
  {
    hide Filter, OwnersOk, Rx, Stamped, SetPriority, UnblockType, BlockRunning, Switch;
    MsgsSame(w.k.alloc, Effect(w, step).k.alloc, w.k.mailbox);
  }

  // Direct sends, matured delayed sends and other receivers' traffic interleave
  // freely; for every process the order and the contents are kept.
  lemma FifoStep(w: World, step: Step, p: Pid)
    requires BlocksOk(w.k, w.h.place) && Enabled(w, step) && Fifo(w, p)
    ensures Fifo(Do(w, step), p)
  {
    hide BlocksOk, Filter, Handed;
    match step
    case Send(pid, ptr) =>
      if SendCode(w.k, pid, ptr) == 0 { SendFifo(w, pid, ptr, p); }
    case Receive => ReceiveFifo(w, p);
    case Tick => TickFifo(w, p);
    case _ => QuietFifo(w, step, p);
  }

  // ---------- what a message says ----------

  // An accepted message is the last of the mailbox, names its receiver and its sender,
  // belongs to the receiver and otherwise carries the bytes the sender wrote; no other
  // block is touched.
  lemma SentMessage(k: Kernel, pid: Pid, ptr: Addr)
    requires pid < WORD && k.Current() < WORD && ptr in k.alloc.mem && |k.mailbox| < k.cap
    requires SendCode(k, pid, ptr) == 0
    ensures var t, b := KernelSpec.Send(k, pid, ptr).0, KernelSpec.Send(k, pid, ptr).0.alloc.Mem(ptr);
      && t.mailbox == k.mailbox + [ptr] && t.delayed == k.delayed
      && Rx(b) == pid && Tx(b) == k.Current() && t.alloc.Owner(ptr) == pid
      && (forall i | 8 <= i < MEM_BLOCK_SIZE :: b[i] == k.alloc.Mem(ptr)[i])
      && (forall p | p != ptr :: t.alloc.Mem(p) == k.alloc.Mem(p) && t.alloc.Owner(p) == k.alloc.Owner(p))
  {
    hide UnblockPid, Addressed, Rx, Tx;
    AddressedFields(k.alloc.Mem(ptr), pid, k.Current());
  }

  // A delayed message also carries the time at which it is due, and wakes nobody.
  lemma PostponedMessage(k: Kernel, pid: Pid, ptr: Addr, delay: nat)
    requires pid < WORD && k.Current() < WORD && ptr in k.alloc.mem && |k.delayed| < k.cap
    requires SendCode(k, pid, ptr) == 0
    ensures var t, b := KernelSpec.DelayedSend(k, pid, ptr, delay).0,
                        KernelSpec.DelayedSend(k, pid, ptr, delay).0.alloc.Mem(ptr);
      && t.delayed == k.delayed + [ptr] && t.mailbox == k.mailbox && t.sched == k.sched
      && Rx(b) == pid && Tx(b) == k.Current() && t.alloc.Owner(ptr) == pid
      && SendTime(b) == (delay + k.ticks) % WORD
      && (forall i | 8 <= i < MEM_BLOCK_SIZE && !(12 <= i < 16) :: b[i] == k.alloc.Mem(ptr)[i])
      && (forall p | p != ptr :: t.alloc.Mem(p) == k.alloc.Mem(p) && t.alloc.Owner(p) == k.alloc.Owner(p))
  {
    hide Stamped, Rx, Tx, SendTime;
    StampedFields(k.alloc.Mem(ptr), pid, k.Current(), (delay + k.ticks) % WORD);
  }
}
