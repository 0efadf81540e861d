// What each step of a run does, in terms of the state before it: the scheduler, every
// block, both mailboxes and the value returned.
module StepLaws {
  import opened Rtx
  import opened Seqs
  import opened Envelope
  import opened SchedSpec
  import opened AllocSpec
  import opened SweepSpec
  import opened KernelSpec
  import opened Runs
  import opened Outcomes
  import opened Delivery
  import opened Reachable

  // Nothing but the scheduler differs.
  ghost predicate OnlySched(k: Kernel, k': Kernel) {
    && k'.alloc == k.alloc && k'.mailbox == k.mailbox && k'.delayed == k.delayed
    && k'.ticks == k.ticks && k'.cap == k.cap
  }

  lemma CoreRuns(w: World)
    requires Core(w)
    ensures Steady(w.k.sched) && w.k.sched.running == Some(w.k.Current()) && w.k.Current() in w.k.sched.procs
    ensures w.k.Current() < WORD
  {
  }

  // request_memory_block: the first free block, or sleep.
  lemma RequestLaw(w: World)
    requires Core(w) && Enabled(w, Step.Request)
    ensures var k, k', r, a := w.k, Do(w, Step.Request).k, w.k.Current(), w.k.alloc;
      if a.free != [] then
        && Answer(w, Step.Request) == Pointer(a.free[0]) && k'.sched == k.sched
        && k'.mailbox == k.mailbox && k'.delayed == k.delayed && k'.ticks == k.ticks && k'.cap == k.cap
        && k'.alloc == Alloc(a.free[1..], a.used + [a.free[0]], a.owner[a.free[0] := r], a.mem)
      else
        && Answer(w, Step.Request) == Pointer(NULL) && OnlySched(k, k')
        && FellAsleep(k.sched, k'.sched, r, BlockedMem, MemQ)
  {
    hide Steady, BlocksOk, PcOk, BlockRunning, FellAsleep;
    CoreRuns(w);
    BlockLaw(w.k.sched, MemQ);
  }

  // receive_message: the first message for the caller, or sleep.
  lemma ReceiveLaw(w: World)
    requires Core(w) && Enabled(w, Step.Receive)
    ensures var k, k', r := w.k, Do(w, Step.Receive).k, w.k.Current();
      (forall p | p in k.mailbox :: Rx(k.alloc.Mem(p)) != r) ==>
        && Answer(w, Step.Receive) == Pointer(NULL) && OnlySched(k, k')
        && FellAsleep(k.sched, k'.sched, r, BlockedMsg, MsgQ)
    ensures var k, k', r := w.k, Do(w, Step.Receive).k, w.k.Current();
      forall i | 0 <= i < |k.mailbox| && Rx(k.alloc.Mem(k.mailbox[i])) == r
                 && forall j | 0 <= j < i :: Rx(k.alloc.Mem(k.mailbox[j])) != r ::
        && Answer(w, Step.Receive) == Pointer(k.mailbox[i]) && k.mailbox[i] != NULL
        && k' == k.(mailbox := k.mailbox[..i] + k.mailbox[i + 1..])
  {
    hide Steady, BlocksOk, PcOk, BlockRunning, FellAsleep, Rx;
    CoreRuns(w);
    BlockLaw(w.k.sched, MsgQ);
    var k, r := w.k, w.k.Current();
    var f := FirstIndex(k.mailbox, k.For(r));
    assert f < |k.mailbox| ==> k.For(r)(k.mailbox[f]) && k.mailbox[f] in k.mailbox;
    forall j | 0 <= j < f ensures Rx(k.alloc.Mem(k.mailbox[j])) != r {
      assert !k.For(r)(k.mailbox[j]);
    }
    forall p | p in k.mailbox ensures p != NULL {
      MailIsBlock(w, p);
    }
  }

  lemma MailIsBlock(w: World, p: Addr)
    requires Core(w) && (p in w.k.mailbox || p in w.k.delayed)
    ensures p in w.h.place && p != NULL
  {
  }

  // release_memory_block: refused with 1, 2 or 3, or the block is zeroed and nobody's and
  // the longest waiter of the best level is woken.
  lemma ReleaseLaw(w: World, ptr: Addr)
    requires Core(w) && Enabled(w, Step.Release(ptr))
    ensures var k, k', r, a := w.k, Do(w, Step.Release(ptr)).k, w.k.Current(), w.k.alloc;
      var code := if a.used == [] then 1 else if ptr !in a.free && ptr !in a.used then 2
                  else if ptr in a.used && a.owner[ptr] == r then 0 else 3;
      && Answer(w, Step.Release(ptr)) == Code(code)
      && (code != 0 ==> k' == k)
      && (code == 0 ==>
            && k'.mailbox == k.mailbox && k'.delayed == k.delayed && k'.ticks == k.ticks && k'.cap == k.cap
            && k'.alloc == Alloc(a.free + [ptr], Without(a.used, ptr), a.owner[ptr := -1],
                                 a.mem[ptr := k'.alloc.Mem(ptr)])
            && (forall i | 0 <= i < MEM_BLOCK_SIZE :: k'.alloc.Mem(ptr)[i] == 0)
            && ((forall p | p in k.sched.procs :: k.sched.procs[p].state != BlockedMem) ==> k'.sched == k.sched)
            && ((exists p :: p in k.sched.procs && k.sched.procs[p].state == BlockedMem) ==>
                  exists p | BestHead(k.sched, MemQ, p) :: Awoke(k.sched, k'.sched, r, p)))
  {
    hide Steady, PcOk, UnblockType, Awoke, BestHead, Rx;
    CoreRuns(w);
    ReleaseLawOn(w.k.sched);
    UsedIsOwned(w, ptr);
  }

  lemma UsedIsOwned(w: World, ptr: Addr)
    requires Core(w)
    ensures ptr in w.k.alloc.used ==> ptr in w.k.alloc.owner && ptr !in w.k.alloc.free
    ensures ptr in w.k.alloc.owner ==> ptr in w.k.alloc.mem
  {
  }

  // The block of an accepted message belongs to its receiver and names receiver and
  // sender. No other block changes.
  ghost predicate Posted(a: Alloc, a': Alloc, ptr: Addr, pid: Pid, sender: Pid) {
    && a'.free == a.free && a'.used == a.used && a'.owner == a.owner[ptr := pid]
    && a'.mem == a.mem[ptr := a'.Mem(ptr)]
    && Rx(a'.Mem(ptr)) == pid && Tx(a'.Mem(ptr)) == sender
  }

  // The codes of both sends, whatever the caller holds. A refused call changes nothing.
  lemma SendCodes(k: Kernel, pid: Pid, ptr: Addr, delay: nat)
    requires Steady(k.sched) && pid < WORD && k.Current() < WORD
    ensures var code := if ptr == NULL then 2 else if !Live(k.sched, pid) then 1 else 0;
      KernelSpec.Send(k, pid, ptr).1 == code && KernelSpec.DelayedSend(k, pid, ptr, delay).1 == code
    ensures KernelSpec.Send(k, pid, ptr).1 != 0 ==> KernelSpec.Send(k, pid, ptr).0 == k
    ensures KernelSpec.DelayedSend(k, pid, ptr, delay).1 != 0 ==> KernelSpec.DelayedSend(k, pid, ptr, delay).0 == k
  {
    hide Steady, Live, Found;
    LiveIs(k.sched, pid);
  }

  // send_message: 2 for a null pointer, 1 for a receiver that neither runs nor stands in
  // a list, and nothing changes; else 0, the message is last in the mailbox and a
  // sleeping receiver wakes up.
  lemma SendLaw(w: World, pid: Pid, ptr: Addr)
    requires Core(w) && Enabled(w, Step.Send(pid, ptr))
    ensures var k, k', r := w.k, Do(w, Step.Send(pid, ptr)).k, w.k.Current();
      var code := if ptr == NULL then 2 else if !Live(k.sched, pid) then 1 else 0;
      && Answer(w, Step.Send(pid, ptr)) == Code(code)
      && (code != 0 ==> k' == k)
      && (code == 0 ==>
            && k'.mailbox == k.mailbox + [ptr] && k'.delayed == k.delayed && k'.ticks == k.ticks && k'.cap == k.cap
            && Posted(k.alloc, k'.alloc, ptr, pid, r)
            && (forall i | 8 <= i < MEM_BLOCK_SIZE :: k'.alloc.Mem(ptr)[i] == k.alloc.Mem(ptr)[i])
            && (if Asleep(k.sched, pid) then Awoke(k.sched, k'.sched, r, pid) else k'.sched == k.sched))
  {
    hide Steady, PcOk, BlocksOk, UnblockPid, Awoke, Live, Asleep, Addressed, Rx, Tx, Found;
    CoreRuns(w);
    LiveIs(w.k.sched, pid);
    if SendCode(w.k, pid, ptr) == 0 {
      HeldMeans(w, ptr);
      SentMessage(w.k, pid, ptr);
      if Asleep(w.k.sched, pid) {
        WakeLaw(w.k.sched, pid);
      } else {
        NotAsleep(w.k.sched, pid);
      }
    }
  }

  lemma HeldMeans(w: World, ptr: Addr)
    requires Core(w) && HeldBy(w, ptr, w.k.Current())
    ensures ptr in w.k.alloc.mem && |w.k.mailbox| < w.k.cap && |w.k.delayed| < w.k.cap
  {
    hide Steady, PcOk;
    Room(w.k, w.h.place);
  }

  lemma NotAsleep(s: Sched, pid: Pid)
    requires Steady(s) && !Asleep(s, pid)
    ensures UnblockPid(s, pid, true) == s
  {
  }

  // delayed_send: the same codes; the message is last in the delayed mailbox, carries the
  // wrapped sum of delay and time, and nobody wakes up.
  lemma DelayedSendLaw(w: World, pid: Pid, ptr: Addr, delay: nat)
    requires Core(w) && Enabled(w, Step.DelayedSend(pid, ptr, delay))
    ensures var k, k', r := w.k, Do(w, Step.DelayedSend(pid, ptr, delay)).k, w.k.Current();
      var code := if ptr == NULL then 2 else if !Live(k.sched, pid) then 1 else 0;
      && Answer(w, Step.DelayedSend(pid, ptr, delay)) == Code(code)
      && (code != 0 ==> k' == k)
      && (code == 0 ==>
            && k'.delayed == k.delayed + [ptr] && k'.mailbox == k.mailbox && k'.ticks == k.ticks && k'.cap == k.cap
            && k'.sched == k.sched && Posted(k.alloc, k'.alloc, ptr, pid, r)
            && SendTime(k'.alloc.Mem(ptr)) == (delay + k.ticks) % WORD
            && (forall i | 8 <= i < MEM_BLOCK_SIZE && !(12 <= i < 16) ::
                  k'.alloc.Mem(ptr)[i] == k.alloc.Mem(ptr)[i]))
  {
    hide Steady, PcOk, BlocksOk, Live, Stamped, Rx, Tx, SendTime, Found;
    CoreRuns(w);
    LiveIs(w.k.sched, pid);
    if SendCode(w.k, pid, ptr) == 0 {
      HeldMeans(w, ptr);
      PostponedMessage(w.k, pid, ptr, delay);
    }
  }

  // set_process_priority: 2, 3 or 4 and nothing changes; else 0. With the priority the
  // process already has nothing changes either.
  lemma SetLaw(w: World, pid: int, priority: int)
    requires Core(w) && Enabled(w, Step.Reprioritize(pid, priority))
    ensures var k, k', r := w.k, Do(w, Step.Reprioritize(pid, priority)).k, w.k.Current();
      var code := if pid <= 0 then 2 else if priority < 0 || priority > 3 then 3
                  else if !Live(k.sched, pid) then 4 else 0;
      && Answer(w, Step.Reprioritize(pid, priority)) == Code(code) && OnlySched(k, k')
      && (code != 0 || Level(k.sched, pid) == priority ==> k' == k)
      && (code == 0 && Level(k.sched, pid) != priority ==> Relevelled(k.sched, k'.sched, r, pid, priority))
  {
    hide Steady, PcOk, BlocksOk, Live, SetPriority, Relevelled, Level;
    CoreRuns(w);
    SetLawOn(w.k.sched, pid, priority);
  }

  // release_processor: the next of the same level runs, if there is one.
  lemma YieldLaw(w: World)
    requires Core(w) && Enabled(w, Step.Yield)
    ensures var k, k' := w.k, Do(w, Step.Yield).k; OnlySched(k, k') && Yielded(k.sched, k'.sched, k.Current())
  {
    hide Steady, PcOk, BlocksOk, Yielded, Switch;
    CoreRuns(w);
    YieldLawOn(w.k.sched);
  }

  // The body of the running process returned: it is gone, and the longest-ready process
  // of the best level runs. Nobody else changes.
  lemma ExitLaw(w: World)
    requires Core(w) && Enabled(w, Step.Exit)
    ensures var k, k' := w.k, Do(w, Step.Exit).k; OnlySched(k, k') && Exited(k.sched, k'.sched, k.Current())
  {
    hide Steady, PcOk, BlocksOk, Exited, Terminate;
    CoreRuns(w);
    ExitLawOn(w.k.sched);
  }

  // It never comes back.
  lemma ExitIsFinal(w: World, steps: seq<Step>)
    requires Inv(w) && Enabled(w, Step.Exit) && Legal(Do(w, Step.Exit), steps)
    ensures var s := Run(Do(w, Step.Exit), steps).k.sched;
      w.k.Current() !in s.procs && !Live(s, w.k.Current())
  {
    hide Inv, Do, Enabled, Live, Exited;
    var v := Do(w, Step.Exit);
    CoreHolds(w);
    ExitLaw(w);
    InvStep(w, Step.Exit);
    RunInv(v, steps);
    CoreHolds(Run(v, steps));
    Gone(w.k.sched, v.k.sched, w.k.Current());
    if w.k.Current() in Run(v, steps).k.sched.procs {
      StillThere(v, steps, w.k.Current());
    }
    CoreRuns(Run(v, steps));
    LiveIs(Run(v, steps).k.sched, w.k.Current());
  }

  lemma Gone(s: Sched, t: Sched, r: Pid)
    requires Exited(s, t, r)
    ensures r !in t.procs
  {
  }

  // A store of the running process changes the bytes of that block and nothing else.
  lemma WriteLaw(w: World, ptr: Addr, block: Block)
    requires Core(w) && Enabled(w, Step.Write(ptr, block))
    ensures var k, k' := w.k, Do(w, Step.Write(ptr, block)).k;
      k' == k.(alloc := Alloc(k.alloc.free, k.alloc.used, k.alloc.owner, k.alloc.mem[ptr := block]))
  {
  }

  // ---------- the tick ----------

  // The first due entry, with the array full and the entry behind it due as well.
  ghost predicate PassedAt(q: seq<Addr>, due: Addr -> bool, cap: nat, d: nat) {
    && |q| >= cap && d + 1 < |q| && due(q[d]) && due(q[d + 1])
    && forall j | 0 <= j < d :: !due(q[j])
  }

  // Exactly the due messages move. In that one case the entry behind the first due one
  // stays, in its place.
  ghost predicate SweptOut(q: seq<Addr>, due: Addr -> bool, cap: nat, moved: seq<Addr>, kept: seq<Addr>) {
    if exists d: nat :: PassedAt(q, due, cap, d) then
      exists d: nat | PassedAt(q, due, cap, d) ::
        && moved == [q[d]] + Filter(q[d + 2..], due)
        && kept == q[..d] + [q[d + 1]] + Filter(q[d + 2..], Not(due))
    else moved == Filter(q, due) && kept == Filter(q, Not(due))
  }

  lemma SweptIs(q: seq<Addr>, due: Addr -> bool, cap: nat)
    ensures SweptOut(q, due, cap, Sweep(q, due, cap).moved, Sweep(q, due, cap).kept)
  {
    hide Filter;
    var f := FirstIndex(q, due);
    if Skips(q, due, cap) {
      assert PassedAt(q, due, cap, f);
    } else {
      SweepExact(q, due, cap);
      forall d: nat ensures !PassedAt(q, due, cap, d) {
        assert PassedAt(q, due, cap, d) ==> d == f;
      }
    }
  }

  // The receivers named in the headers of messages.
  ghost predicate ReceiversOf(a: Alloc, moved: seq<Addr>, pids: seq<Pid>) {
    |pids| == |moved| && forall i | 0 <= i < |moved| :: pids[i] == Rx(a.Mem(moved[i]))
  }

  // timer_isr: the time advances, due messages move, and their receivers wake up.
  lemma TickLaw(w: World)
    requires Core(w) && Enabled(w, Step.Tick)
    ensures var k, k' := w.k, Do(w, Step.Tick).k;
      && k'.ticks == (k.ticks + 1) % WORD && k'.alloc == k.alloc && k'.cap == k.cap
      && k.mailbox <= k'.mailbox
      && SweptOut(k.delayed, k.Due(k'.ticks), k.cap, k'.mailbox[|k.mailbox|..], k'.delayed)
    ensures forall p, t :: w.k.Due(t)(p) <==> SendTime(w.k.alloc.Mem(p)) <= t
    ensures var k, k' := w.k, Do(w, Step.Tick).k;
      forall pids | ReceiversOf(k.alloc, k'.mailbox[|k.mailbox|..], pids) ::
        && Ticked(k.sched, k'.sched, k.Current(), pids)
        && ((forall p | p in pids :: !Asleep(k.sched, p)) ==> k'.sched == k.sched)
  {
    hide Steady, PcOk, BlocksOk, WakeMany, Sweep, SweptOut, Ticked, Rx, SendTime, Asleep, Filter, Skips;
    CoreRuns(w);
    var k, k' := w.k, Do(w, Step.Tick).k;
    var moved := SweptAt(k).moved;
    SweptIs(k.delayed, k.Due((k.ticks + 1) % WORD), k.cap);
    assert k'.mailbox == k.mailbox + moved && k'.mailbox[|k.mailbox|..] == moved;
    forall pids | ReceiversOf(k.alloc, moved, pids)
      ensures Ticked(k.sched, k'.sched, k.Current(), pids)
      ensures (forall p | p in pids :: !Asleep(k.sched, p)) ==> k'.sched == k.sched
    {
      assert Receivers(k, moved) == pids;
      TickLawOn(k.sched, pids);
    }
  }
}
