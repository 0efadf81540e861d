// Every step keeps the kernel's core invariant.
module Safety {
  import opened Rtx
  import opened Seqs
  import opened Envelope
  import opened SchedSpec
  import opened AllocSpec
  import opened SweepSpec
  import opened KernelSpec
  import opened Runs

  // ---------- blocks ----------

  lemma Stays(listing: Listing, q: seq<Addr>, place: map<Addr, Place>, ptr: Addr, to: Place)
    requires Lists(listing, q, place) && ptr in place && Listed(listing, place[ptr]) == Listed(listing, to)
    ensures Lists(listing, q, place[ptr := to])
  {
  }

  lemma Joins(listing: Listing, q: seq<Addr>, place: map<Addr, Place>, ptr: Addr, to: Place)
    requires Lists(listing, q, place) && ptr in place && !Listed(listing, place[ptr]) && Listed(listing, to)
    ensures Lists(listing, q + [ptr], place[ptr := to])
  {
  }

  lemma Leaves(listing: Listing, q: seq<Addr>, place: map<Addr, Place>, ptr: Addr, to: Place)
    requires Lists(listing, q, place) && ptr in place && Listed(listing, place[ptr]) && !Listed(listing, to)
    ensures Lists(listing, Without(q, ptr), place[ptr := to])
  {
    WithoutMembers(q, ptr);
  }

  lemma SameBlocks(place: map<Addr, Place>, ptr: Addr, to: Place)
    requires ptr in place
    ensures place[ptr := to].Keys == place.Keys && |place[ptr := to]| == |place|
  {
    assert place[ptr := to].Keys == place.Keys;
  }

  lemma RequestBlocks(k: Kernel, place: map<Addr, Place>)
    requires BlocksOk(k, place) && k.alloc.free != [] && k.sched.running.Some? && k.Current() in k.sched.procs
    ensures BlocksOk(KernelSpec.Request(k).0, place[k.alloc.free[0] := Held(k.Current())])
  {
    var ptr, to := k.alloc.free[0], Held(k.Current());
    assert ptr in k.alloc.free;
    SameBlocks(place, ptr, to);
    IndexUnique(k.alloc.free, 0);
    Leaves(FreeBlocks, k.alloc.free, place, ptr, to);
    Joins(UsedBlocks, k.alloc.used, place, ptr, to);
    Stays(Mailbox, k.mailbox, place, ptr, to);
    Stays(DelayedMailbox, k.delayed, place, ptr, to);
    hide Lists;
    assert Drop(k.alloc.free, 0) == k.alloc.free[1..];
  }

  lemma ReceiveBlocks(k: Kernel, place: map<Addr, Place>)
    requires BlocksOk(k, place) && k.sched.running.Some? && k.Current() in k.sched.procs
    ensures var (t, got) := KernelSpec.Receive(k);
      got.Some? ==> got.value in place && place[got.value].Mailed? && BlocksOk(t, place[got.value := Held(k.Current())])
  {
    var i := FirstIndex(k.mailbox, k.For(k.Current()));
    if i < |k.mailbox| {
      var ptr, to := k.mailbox[i], Held(k.Current());
      assert ptr in k.mailbox;
      SameBlocks(place, ptr, to);
      IndexUnique(k.mailbox, i);
      Stays(FreeBlocks, k.alloc.free, place, ptr, to);
      Stays(UsedBlocks, k.alloc.used, place, ptr, to);
      Leaves(Mailbox, k.mailbox, place, ptr, to);
      Stays(DelayedMailbox, k.delayed, place, ptr, to);
      hide Lists;
      assert k.alloc.Mem(ptr) == k.alloc.mem[ptr];
    }
  }

  lemma ReleaseBlocks(k: Kernel, place: map<Addr, Place>, ptr: Addr)
    requires BlocksOk(k, place) && ptr in place && place[ptr].Held? && GiveCode(k.alloc, ptr, k.Current()) == 0
    ensures BlocksOk(KernelSpec.Release(k, ptr).0, place[ptr := Free])
  {
    SameBlocks(place, ptr, Free);
    Joins(FreeBlocks, k.alloc.free, place, ptr, Free);
    Leaves(UsedBlocks, k.alloc.used, place, ptr, Free);
    Stays(Mailbox, k.mailbox, place, ptr, Free);
    Stays(DelayedMailbox, k.delayed, place, ptr, Free);
    hide Lists;
  }

  lemma SendBlocks(k: Kernel, place: map<Addr, Place>, pid: Pid, ptr: Addr)
    requires BlocksOk(k, place) && ptr in place && place[ptr].Held?
    requires pid < WORD && k.Current() < WORD && SendCode(k, pid, ptr) == 0
    ensures BlocksOk(KernelSpec.Send(k, pid, ptr).0, place[ptr := Mailed])
  {
    Room(k, place);
    AddressedFields(k.alloc.Mem(ptr), pid, k.Current());
    SameBlocks(place, ptr, Mailed);
    Stays(FreeBlocks, k.alloc.free, place, ptr, Mailed);
    Stays(UsedBlocks, k.alloc.used, place, ptr, Mailed);
    Joins(Mailbox, k.mailbox, place, ptr, Mailed);
    Stays(DelayedMailbox, k.delayed, place, ptr, Mailed);
    hide Lists, Addressed, Rx;
  }

  lemma DelayedSendBlocks(k: Kernel, place: map<Addr, Place>, pid: Pid, ptr: Addr, delay: nat)
    requires BlocksOk(k, place) && ptr in place && place[ptr].Held?
    requires pid < WORD && k.Current() < WORD && SendCode(k, pid, ptr) == 0
    ensures BlocksOk(KernelSpec.DelayedSend(k, pid, ptr, delay).0, place[ptr := Postponed])
  {
    Room(k, place);
    StampedFields(k.alloc.Mem(ptr), pid, k.Current(), (delay + k.ticks) % WORD);
    SameBlocks(place, ptr, Postponed);
    Stays(FreeBlocks, k.alloc.free, place, ptr, Postponed);
    Stays(UsedBlocks, k.alloc.used, place, ptr, Postponed);
    Stays(Mailbox, k.mailbox, place, ptr, Postponed);
    Joins(DelayedMailbox, k.delayed, place, ptr, Postponed);
    hide Lists, Stamped, Rx;
  }

  // The moved and the kept entries are those of the delayed mailbox, each once.
  lemma SweptMembers(k: Kernel, place: map<Addr, Place>)
    requires BlocksOk(k, place)
    ensures var swept := SweptAt(k);
      && NoDup(swept.moved) && NoDup(swept.kept)
      && (forall p :: p in k.delayed <==> p in swept.moved || p in swept.kept)
      && (forall p | p in swept.moved :: p !in swept.kept)
  {
    hide Sweep;
    var swept := SweptAt(k);
    SweepConserves(k.delayed, k.Due((k.ticks + 1) % WORD), k.cap);
    NoDupMultiset(k.delayed);
    forall p
      ensures p in k.delayed <==> p in swept.moved || p in swept.kept
      ensures p in swept.moved ==> p !in swept.kept
    {
      assert multiset(k.delayed)[p] == multiset(swept.moved)[p] + multiset(swept.kept)[p];
      assert p in swept.moved <==> multiset(swept.moved)[p] > 0;
      assert p in swept.kept <==> multiset(swept.kept)[p] > 0;
    }
    forall p
      ensures multiset(swept.moved)[p] <= 1 && multiset(swept.kept)[p] <= 1
    {
      assert multiset(k.delayed)[p] == multiset(swept.moved)[p] + multiset(swept.kept)[p];
    }
    MultisetNoDup(swept.moved);
    MultisetNoDup(swept.kept);
  }

  lemma TickBlocks(k: Kernel, place: map<Addr, Place>)
    requires BlocksOk(k, place)
    ensures BlocksOk(KernelSpec.Tick(k), Matured(place, SweptAt(k).moved))
  {
    var swept := SweptAt(k);
    var place' := Matured(place, swept.moved);
    SweptMembers(k, place);
    NoDupConcat(k.mailbox, swept.moved);
    assert Lists(Mailbox, k.mailbox + swept.moved, place');
    assert Lists(DelayedMailbox, swept.kept, place');
    assert place'.Keys == place.Keys;
  }

  // Every due message finds an empty slot.
  lemma TickFits(k: Kernel, place: map<Addr, Place>)
    requires BlocksOk(k, place)
    ensures |k.mailbox| + |SweptAt(k).moved| <= k.cap
  {
    hide BlocksOk, Sweep;
    Room(k, place);
    SweptMembers(k, place);
    MovesFit(k, SweptAt(k).moved);
  }

  // The moved messages come out of the delayed mailbox, so they find room.
  lemma MovesFit(k: Kernel, moved: seq<Addr>)
    requires |k.mailbox| + |k.delayed| <= k.cap && NoDup(moved) && forall p | p in moved :: p in k.delayed
    ensures |k.mailbox| + |moved| <= k.cap
  {
    NoDupBound(moved, Elems(k.delayed));
    ElemsAtMost(k.delayed);
  }

  lemma {:induction false} ElemsAtMost(q: seq<Addr>)
    ensures |Elems(q)| <= |q|
  {
    if q != [] {
      ElemsAtMost(q[1..]);
      assert q == [q[0]] + q[1..];
      assert Elems(q) == {q[0]} + Elems(q[1..]);
    }
  }

  // ---------- processes ----------

  lemma PcSame(s: Sched, s': Sched, pc: map<Pid, Pc>)
    requires PcOk(s, pc) && SameWaits(s, s')
    ensures PcOk(s', pc)
  {
  }

  lemma RequestProcs(w: World)
    requires Core(w) && Enabled(w, Request)
    ensures Steady(DoRequest(w).k.sched) && PcOk(DoRequest(w).k.sched, DoRequest(w).h.pc)
  {
    hide BlocksOk, Queued, NoneBefore, BlockRunning;
    if w.k.alloc.free == [] {
      BlockSteady(w.k.sched, MemQ);
    }
  }

  lemma ReceiveProcs(w: World)
    requires Core(w) && Enabled(w, Receive)
    ensures Steady(DoReceive(w).k.sched) && PcOk(DoReceive(w).k.sched, DoReceive(w).h.pc)
  {
    hide BlocksOk, Queued, NoneBefore, BlockRunning;
    if FirstIndex(w.k.mailbox, w.k.For(w.k.Current())) == |w.k.mailbox| {
      BlockSteady(w.k.sched, MsgQ);
    }
  }

  lemma SendProcs(s: Sched, pid: Pid, pc: map<Pid, Pc>)
    requires Steady(s) && PcOk(s, pc)
    ensures Steady(UnblockPid(s, pid, true)) && PcOk(UnblockPid(s, pid, true), pc)
  {
    hide Queued, NoneBefore, UnblockPid;
    WakeShape(s, pid);
    UnblockPidSteady(s, pid);
  }

  lemma ReleaseProcs(s: Sched, pc: map<Pid, Pc>)
    requires Steady(s) && PcOk(s, pc)
    ensures Steady(UnblockType(s, MemQ)) && PcOk(UnblockType(s, MemQ), pc)
  {
    hide Queued, NoneBefore, UnblockType;
    UnblockTypeSteady(s, MemQ);
  }

  lemma TickProcs(s: Sched, pids: seq<Pid>, pc: map<Pid, Pc>)
    requires Steady(s) && PcOk(s, pc)
    ensures Steady(WakeMany(s, pids)) && PcOk(WakeMany(s, pids), pc)
  {
    hide Queued, NoneBefore, WakeMany;
    WakeAllShape(s, pids);
    WakeManySteady(s, pids);
  }

  lemma PriorityProcs(s: Sched, pid: int, priority: int, pc: map<Pid, Pc>)
    requires Steady(s) && PcOk(s, pc)
    ensures Steady(SetPriority(s, pid, priority).0) && PcOk(SetPriority(s, pid, priority).0, pc)
  {
    hide Steady, SetPriority;
    SetPrioritySteady(s, pid, priority);
    if SetPriority(s, pid, priority).1 == 0 {
      PcSame(SetLevel(s, pid, priority), SetPriority(s, pid, priority).0, pc);
    }
  }

  lemma ExitProcs(s: Sched, pc: map<Pid, Pc>)
    requires Steady(s) && PcOk(s, pc) && s.running.value != NULL_PID
    ensures Steady(Terminate(s)) && PcOk(Terminate(s), pc)
  {
    hide Queued, NoneBefore, Switch;
    TerminateSteady(s);
    PcSame(s.(procs := s.procs - {s.running.value}), Terminate(s), pc);
  }

  // ---------- every step ----------

  lemma RequestCore(w: World)
    requires Core(w) && Enabled(w, Request)
    ensures Core(DoRequest(w))
  {
    hide Steady, PcOk, Lists, OwnersOk;
    RequestProcs(w);
    if w.k.alloc.free != [] {
      RequestBlocks(w.k, w.h.place);
    }
  }

  lemma ReceiveCore(w: World)
    requires Core(w) && Enabled(w, Receive)
    ensures Core(DoReceive(w))
  {
    hide Steady, PcOk, Lists, OwnersOk;
    ReceiveBlocks(w.k, w.h.place);
    ReceiveProcs(w);
  }

  lemma ReleaseCore(w: World, ptr: Addr)
    requires Core(w) && Enabled(w, Release(ptr))
    ensures Core(DoRelease(w, ptr))
  {
    hide Steady, PcOk, Lists, OwnersOk;
    ReleaseProcs(w.k.sched, w.h.pc);
    if GiveCode(w.k.alloc, ptr, w.k.Current()) == 0 {
      ReleaseBlocks(w.k, w.h.place, ptr);
    }
  }

  lemma SendCore(w: World, pid: Pid, ptr: Addr)
    requires Core(w) && Enabled(w, Send(pid, ptr))
    ensures Core(DoSend(w, pid, ptr))
  {
    hide Steady, PcOk, Lists, OwnersOk;
    if SendCode(w.k, pid, ptr) == 0 {
      SendBlocks(w.k, w.h.place, pid, ptr);
      SendProcs(w.k.sched, pid, w.h.pc);
    }
  }

  lemma DelayedSendCore(w: World, pid: Pid, ptr: Addr, delay: nat)
    requires Core(w) && Enabled(w, DelayedSend(pid, ptr, delay))
    ensures Core(DoDelayedSend(w, pid, ptr, delay))
  {
    hide Steady, PcOk, Lists, OwnersOk;
    if SendCode(w.k, pid, ptr) == 0 {
      DelayedSendBlocks(w.k, w.h.place, pid, ptr, delay);
    }
  }

  lemma TickCore(w: World)
    requires Core(w)
    ensures Core(DoTick(w))
  {
    hide Steady, PcOk, Lists, OwnersOk;
    TickBlocks(w.k, w.h.place);
    TickProcs(w.k.sched, Receivers(w.k, SweptAt(w.k).moved), w.h.pc);
  }

  lemma WriteCore(w: World, ptr: Addr, block: Block)
    requires Core(w) && Enabled(w, Step.Write(ptr, block))
    ensures Core(Effect(w, Step.Write(ptr, block)))
  {
    hide Steady, PcOk, Lists;
  }

  lemma SchedCore(w: World, step: Step)
    requires Core(w) && Enabled(w, step) && (step.Reprioritize? || step.Yield? || step.Exit?)
    ensures Core(Effect(w, step))
  {
    hide PcOk, Lists, OwnersOk, Queued, NoneBefore, Idle;
    var s, pc := w.k.sched, w.h.pc;
    match step
    case Reprioritize(pid, priority) => PriorityProcs(s, pid, priority, pc);
    case Yield => YieldSteady(s); PcSame(s, Switch(s), pc);
    case Exit => ExitProcs(s, pc);
  }

  // The core invariant is kept by every step of every process and by every tick.
  lemma CoreStep(w: World, step: Step)
    requires Core(w) && Enabled(w, step)
    ensures Core(Effect(w, step)) && Core(Do(w, step))
  {
    hide Steady, BlocksOk, PcOk;
    match step
    case Request => RequestCore(w);
    case Receive => ReceiveCore(w);
    case Release(ptr) => ReleaseCore(w, ptr);
    case Send(pid, ptr) => SendCore(w, pid, ptr);
    case DelayedSend(pid, ptr, delay) => DelayedSendCore(w, pid, ptr, delay);
    case Write(ptr, block) => WriteCore(w, ptr, block);
    case Tick => TickCore(w);
    case _ => SchedCore(w, step);
  }
}
