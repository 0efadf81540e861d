// messaging.c and timer.c: the two mailbox arrays.
module Mailboxes {
  import opened Rtx
  import opened Seqs
  import opened KernelSpec

  // The array holds q in its first slots and null pointers behind it.
  ghost predicate Boxed(box: array<Addr>, q: seq<Addr>)
    reads box
  {
    |q| <= box.Length && NULL !in q && forall i | 0 <= i < box.Length :: box[i] == if i < |q| then q[i] else NULL
  }

  // init_messaging
  method NewBox(cap: nat) returns (box: array<Addr>)
    ensures fresh(box) && box.Length == cap && Boxed(box, [])
  {
    box := new Addr[cap];
    for i := 0 to cap
      invariant forall j | 0 <= j < i :: box[j] == NULL
    {
      box[i] := NULL;
    }
  }

  // The store loops of the two send handlers and of the sweep. j is the slot taken.
  method StoreEntry(box: array<Addr>, ghost q: seq<Addr>, ptr: Addr) returns (j: nat)
    requires Boxed(box, q) && ptr != NULL
    modifies box
    ensures Boxed(box, Store(q, ptr, box.Length)) && j == |q|
  {
    j := 0;
    while j < box.Length
      invariant 0 <= j <= |q| && Boxed(box, q)
    {
      if box[j] == NULL {
        box[j] := ptr;
        assert Boxed(box, q + [ptr]);
        return;
      }
      assert j < |q|;
      j := j + 1;
    }
  }

  // Slot i is cleared and the entries behind it move up; k is the slot where the
  // loop stops.
  method RemoveEntry(box: array<Addr>, ghost q: seq<Addr>, i: nat) returns (k: nat)
    requires Boxed(box, q) && i < |q|
    modifies box
    ensures Boxed(box, Drop(q, i)) && k == |q|
  {
    box[i] := NULL;
    k := i + 1;
    while k < box.Length
      invariant i < k <= |q|
      invariant forall m | 0 <= m < i :: box[m] == q[m]
      invariant forall m | i <= m < k - 1 :: box[m] == q[m + 1]
      invariant box[k - 1] == NULL
      invariant forall m | k <= m < box.Length :: box[m] == if m < |q| then q[m] else NULL
    {
      if box[k] == NULL {
        break;
      }
      box[k - 1] := box[k];
      box[k] := NULL;
      k := k + 1;
    }
    forall p | p in Drop(q, i) ensures p in q {
    }
  }
}

// How the sweep of check_existing_delayed_message proceeds.
module SweepSteps {
  import opened Seqs
  import opened SweepSpec

  // What is still to be done with the entries not visited yet; full says that no
  // slot is free behind them.
  function Remaining<T>(rest: seq<T>, due: T -> bool, full: bool): Swept<T> {
    if full then Sweep(rest, due, |rest|) else Swept(Filter(rest, due), Filter(rest, Not(due)))
  }

  // Visited entries are in moved or kept; the whole sweep is what was done and what remains.
  ghost predicate OnTrack<T>(q: seq<T>, due: T -> bool, cap: nat, moved: seq<T>, kept: seq<T>, rest: seq<T>) {
    var r := Remaining(rest, due, |kept| + |rest| >= cap);
    |kept| + |rest| <= cap && Sweep(q, due, cap) == Swept(moved + r.moved, kept + r.kept)
  }

  lemma StartOnTrack<T>(q: seq<T>, due: T -> bool, cap: nat)
    requires |q| <= cap
    ensures OnTrack(q, due, cap, [], [], q)
  {
    hide Filter;
    var r := Remaining(q, due, |q| >= cap);
    assert [] + r.moved == r.moved && [] + r.kept == r.kept;
    assert Sweep(q, due, cap) == r;
  }

  lemma EndOnTrack<T>(q: seq<T>, due: T -> bool, cap: nat, moved: seq<T>, kept: seq<T>, rest: seq<T>)
    requires OnTrack(q, due, cap, moved, kept, rest) && rest == []
    ensures Sweep(q, due, cap) == Swept(moved, kept)
  {
    var r := Remaining(rest, due, |kept| + |rest| >= cap);
    assert r == Swept([], []);
    assert moved + r.moved == moved && kept + r.kept == kept;
  }

  lemma KeepOnTrack<T>(q: seq<T>, due: T -> bool, cap: nat, moved: seq<T>, kept: seq<T>, rest: seq<T>)
    requires OnTrack(q, due, cap, moved, kept, rest) && rest != [] && !due(rest[0])
    ensures OnTrack(q, due, cap, moved, kept + [rest[0]], rest[1..])
  {
    var full := |kept| + |rest| >= cap;
    var r, r' := Remaining(rest, due, full), Remaining(rest[1..], due, full);
    SkipOne(rest, due, full);
    assert kept + r.kept == kept + [rest[0]] + r'.kept;
  }

  lemma SkipOne<T>(rest: seq<T>, due: T -> bool, full: bool)
    requires rest != [] && !due(rest[0])
    ensures var r, r' := Remaining(rest, due, full), Remaining(rest[1..], due, full);
      r.moved == r'.moved && r.kept == [rest[0]] + r'.kept
  {
    if full {
      var d := FirstIndex(rest[1..], due);
      assert FirstIndex(rest, due) == d + 1;
      if d + 1 < |rest[1..]| {
        assert rest[d + 3..] == rest[1..][d + 2..];
        assert rest[..d + 1] == [rest[0]] + rest[1..][..d];
      }
    }
  }

  lemma MoveOnTrack<T>(q: seq<T>, due: T -> bool, cap: nat, moved: seq<T>, kept: seq<T>, rest: seq<T>)
    requires OnTrack(q, due, cap, moved, kept, rest) && rest != [] && due(rest[0])
    requires |kept| + |rest| < cap || |rest| == 1
    ensures OnTrack(q, due, cap, moved + [rest[0]], kept, rest[1..])
  {
    var r, r' := Remaining(rest, due, |kept| + |rest| >= cap), Remaining(rest[1..], due, false);
    assert r.moved == [rest[0]] + r'.moved && r.kept == r'.kept;
    assert moved + r.moved == moved + [rest[0]] + r'.moved;
  }

  // With the array full the entry behind the moved one is passed over.
  lemma PassOnTrack<T>(q: seq<T>, due: T -> bool, cap: nat, moved: seq<T>, kept: seq<T>, rest: seq<T>)
    requires OnTrack(q, due, cap, moved, kept, rest) && |rest| >= 2 && due(rest[0]) && |kept| + |rest| == cap
    ensures OnTrack(q, due, cap, moved + [rest[0]], kept + [rest[1]], rest[2..])
  {
    hide Filter;
    var r, r' := Remaining(rest, due, true), Remaining(rest[2..], due, false);
    assert FirstIndex(rest, due) == 0;
    assert r.moved == [rest[0]] + r'.moved && r.kept == [rest[1]] + r'.kept;
    assert moved + r.moved == moved + [rest[0]] + r'.moved;
    assert kept + r.kept == kept + [rest[1]] + r'.kept;
  }
}

// The trap handlers and the timer interrupt, over the scheduler, the allocator and
// the two mailboxes.
module KernelImpl {
  import opened Rtx
  import opened Seqs
  import opened Envelope
  import opened SchedSpec
  import opened AllocSpec
  import opened SweepSpec
  import opened KernelSpec
  import opened Boot
  import opened SchedulerImpl
  import opened AllocatorImpl
  import opened Mailboxes
  import opened SweepSteps
  import Runs

  // What the handlers rely on: a steady scheduler, and mailboxes that hold blocks
  // and leave room for each other.
  ghost predicate Sound(k: Kernel) {
    && Steady(k.sched) && Posted(k)
  }

  ghost predicate Posted(k: Kernel) {
    && (forall p | p in k.mailbox || p in k.delayed :: p in k.alloc.mem)
    && |k.mailbox| + |k.delayed| <= k.cap && k.ticks < WORD
  }

  // Every state of a run is sound.
  lemma CoreIsSound(w: Runs.World)
    requires Runs.Core(w)
    ensures Sound(w.k)
  {
    Runs.Room(w.k, w.h.place);
  }

  class Executive {
    const sched: Scheduler
    const memory: Allocator
    const mailbox: array<Addr>
    const delayedMailbox: array<Addr>
    var ticks: nat

    // The messages in the two arrays.
    ghost var mail: seq<Addr>
    ghost var late: seq<Addr>

    ghost predicate Valid()
      reads this, sched, sched.readyQueue, sched.memBlockedQueue, sched.msgBlockedQueue, sched.nodes
      reads memory, memory.ram, memory.nodes, mailbox, delayedMailbox
    {
      && sched.Valid() && memory.Valid()
      && mailbox.Length == delayedMailbox.Length && mailbox != delayedMailbox
      && (mailbox as object) != memory.ram && (delayedMailbox as object) != memory.ram
      && Boxed(mailbox, mail) && Boxed(delayedMailbox, late)
    }

    ghost function View(): Kernel
      reads this, sched, memory
    {
      Kernel(sched.S, memory.A, mail, late, ticks, mailbox.Length)
    }

    lemma ViewMeans()
      ensures View().alloc == memory.A
    {
    }

    // main(): the tables are set up, then the processor is released to the first process.
    constructor (table: seq<Pib>, base: Addr, cap: nat)
      requires GoodTable(table) && base > 0 && cap > 0
      ensures Valid() && View() == BootKernel(table, base, cap)
      ensures fresh(sched) && fresh(sched.readyQueue) && fresh(sched.memBlockedQueue) && fresh(sched.msgBlockedQueue)
      ensures fresh(sched.nodes) && fresh(memory) && fresh(memory.ram) && fresh(memory.nodes)
      ensures fresh(mailbox) && fresh(delayedMailbox)
    {
      hide Scheduler.Valid, Allocator.Valid, Admitted, Started, FreshAlloc, Boxed, Steady, GoodTable;
      var s := new Scheduler();
      s.InitializeProcesses(table);
      var m := new Allocator(base, cap);
      var box := NewBox(cap);
      var delayed := NewBox(cap);
      s.Start(table);
      sched, memory, mailbox, delayedMailbox := s, m, box, delayed;
      ticks := 0;
      mail, late := [], [];
    }

    // request_memory_block_handler, one turn of its wait loop: with no block free the
    // process goes to sleep and, once it runs again, takes another turn.
    method RequestMemoryBlock() returns (block: Addr)
      requires Valid() && Sound(View()) && View().Current() != NULL_PID
      modifies sched`S, sched`running, sched.readyQueue, sched.memBlockedQueue, sched.msgBlockedQueue, sched.nodes
      modifies memory`A, memory`availableBlocks, memory`usedBlocks, memory.nodes
      ensures Valid() && View() == Request(old(View())).0
      ensures block == if Request(old(View())).1 == None then NULL else Request(old(View())).1.value
    {
      hide Steady, Sound, Valid, Scheduler.Valid, Allocator.Valid, BlockRunning, Take;
      SoundRuns();
      var pid := sched.GetCurrentPid();
      var available := AreBlocksAvailable();
      if !available {
        Sleep(pid, MemQ);
        return NULL;
      }
      block := TakeFirst(pid);
    }

    // are_blocks_available
    method AreBlocksAvailable() returns (available: bool)
      requires Valid()
      ensures available <==> memory.A.free != []
    {
      memory.AvailableMeans();
      return memory.availableBlocks != null;
    }

    method TakeFirst(pid: Pid) returns (block: Addr)
      requires Valid() && memory.A.free != []
      modifies memory`A, memory`availableBlocks, memory`usedBlocks, memory.nodes
      ensures Valid() && memory.A == Take(old(memory.A), pid) && block == old(memory.A).free[0]
    {
      hide Scheduler.Valid, Allocator.Valid, Boxed, Take;
      block := memory.TakeBlock(pid);
    }

    // The running process goes to sleep.
    method Sleep(pid: Pid, kind: Kind)
      requires Valid() && Sound(View()) && sched.S.running == Some(pid) && pid in sched.S.procs && kind != ReadyQ
      modifies sched`S, sched`running, sched.readyQueue, sched.memBlockedQueue, sched.msgBlockedQueue, sched.nodes
      ensures Valid() && sched.S == BlockRunning(old(sched.S), kind)
    {
      hide Steady, Scheduler.Valid, Allocator.Valid, Boxed;
      sched.BlockProcess(pid, kind);
    }

    // release_memory_handler
    method ReleaseMemoryBlock(ptr: Addr) returns (code: int)
      requires Valid() && Sound(View())
      modifies sched`S, sched`running, sched.readyQueue, sched.memBlockedQueue, sched.msgBlockedQueue, sched.nodes
      modifies memory`A, memory`availableBlocks, memory`usedBlocks, memory.nodes, memory.ram
      ensures Valid() && (View(), code) == Release(old(View()), ptr)
    {
      hide Steady, Scheduler.Valid, Allocator.Valid, Boxed, UnblockType;
      SteadyRuns(sched.S);
      var pid := sched.GetCurrentPid();
      code := memory.GiveBlock(ptr, pid);
      if code == 0 {
        sched.UnblockProcessByType(MemQ);
      }
    }

    // A word of a header, after others: `first` is what the block held before, and a is
    // the allocator before the message was given to its receiver.
    method StoreNext(envelope: Addr, off: nat, v: nat, ghost a: Alloc, ghost first: Block, ghost pid: Pid)
      requires Valid() && v < WORD && off + 4 <= MEM_BLOCK_SIZE && envelope in a.mem && memory.A.Knows(envelope)
      requires memory.A == Reassign(Write(a, envelope, first), envelope, pid)
      modifies memory`A, memory.ram
      ensures Valid() && memory.A == Reassign(Write(a, envelope, PutWord(first, off, v)), envelope, pid)
    {
      hide Scheduler.Valid, Allocator.Valid, Boxed, PutWord;
      memory.KnownMeans();
      memory.StoreWord(envelope, off, v);
      WriteAgain(a, envelope, first, PutWord(first, off, v), pid);
    }

    // The header writes shared by both send handlers: receiver, owner, sender.
    method FillHeader(pid: Pid, envelope: Addr)
      requires Valid() && Sound(View()) && pid < WORD && memory.A.Knows(envelope) && envelope in memory.A.mem
      modifies memory`A, memory.nodes`pid, memory.ram
      ensures Valid() && View().Current() < WORD
      ensures memory.A == Reassign(Write(old(memory.A), envelope,
                Addressed(old(memory.A).Mem(envelope), pid, View().Current())), envelope, pid)
    {
      hide Scheduler.Valid, Allocator.Valid, PutWord, Boxed, Posted, Sound, Write, Reassign;
      ghost var a, b := memory.A, memory.A.Mem(envelope);
      SoundRuns();
      Address(pid, envelope);
      var tx := sched.GetCurrentPid();
      StoreNext(envelope, TX, tx, a, PutWord(b, RX, pid), pid);
    }

    // The receiver, and the block becomes its own.
    method Address(pid: Pid, envelope: Addr)
      requires Valid() && pid < WORD && memory.A.Knows(envelope) && envelope in memory.A.mem
      modifies memory`A, memory.nodes`pid, memory.ram
      ensures Valid() && memory.A.Knows(envelope)
      ensures memory.A == Reassign(Write(old(memory.A), envelope,
                PutWord(old(memory.A).Mem(envelope), RX, pid)), envelope, pid)
    {
      hide Scheduler.Valid, Allocator.Valid, PutWord, Boxed;
      memory.KnownMeans();
      memory.StoreWord(envelope, RX, pid);
      memory.ReassignMemBlock(envelope, pid);
    }

    lemma SoundRuns()
      requires Valid() && Sound(View())
      ensures sched.Valid() && sched.S.running.Some? && sched.S.running.value == View().Current() < WORD
      ensures sched.S.running.value in sched.S.procs
    {
      hide Scheduler.Valid, Allocator.Valid;
      SteadyRuns(sched.S);
    }

    // void_to_block finds the pointer. The handlers look it up after their first write;
    // for any other pointer that write and the next go astray, which is reported instead.
    method IsBlock(ptr: Addr) returns (known: bool)
      requires Valid()
      ensures known <==> memory.A.Knows(ptr)
      ensures known ==> ptr in memory.A.mem
    {
      hide Scheduler.Valid, Allocator.Valid, Boxed;
      var block := memory.VoidToBlock(ptr);
      memory.KnownMeans();
      return block != null;
    }

    // send_message_handler
    method SendMessage(pid: Pid, envelope: Addr) returns (code: int, stray: bool)
      requires Valid() && Sound(View()) && pid < WORD
      modifies sched`S, sched`running, sched.readyQueue, sched.memBlockedQueue, sched.msgBlockedQueue, sched.nodes
      modifies memory`A, memory.nodes`pid, memory.ram, mailbox, this`mail
      ensures Valid() && old(View()).Current() < WORD
      ensures stray <==> SendCode(old(View()), pid, envelope) == 0 && !old(View()).alloc.Knows(envelope)
      ensures if stray then View() == old(View()) else (View(), code) == Send(old(View()), pid, envelope)
    {
      hide Valid, Sound, Steady, Send, SendCode;
      SoundRuns();
      code, stray := Judge(pid, envelope);
      if code != 0 || stray {
        Refused(View(), pid, envelope, 0);
        return;
      }
      Accept(pid, envelope);
    }

    // The checks shared by both send handlers: a null envelope, a pid that is not live,
    // and a pointer that is no block.
    method Judge(pid: Pid, envelope: Addr) returns (code: int, stray: bool)
      requires Valid() && Sound(View())
      ensures code == SendCode(View(), pid, envelope)
      ensures stray <==> code == 0 && !View().alloc.Knows(envelope)
      ensures !stray && code == 0 ==> envelope != NULL && envelope in memory.A.mem
    {
      hide Scheduler.Valid, Allocator.Valid, Boxed, Idle, NoneBefore, Queued;
      if envelope == NULL {
        return 2, false;
      }
      var valid := sched.IsPidValid(pid);
      if !valid {
        return 1, false;
      }
      var known := IsBlock(envelope);
      return 0, !known;
    }

    // A message that passed the checks.
    method Accept(pid: Pid, envelope: Addr)
      requires Valid() && Sound(View()) && pid < WORD && View().Current() < WORD
      requires SendCode(View(), pid, envelope) == 0 && memory.A.Knows(envelope) && envelope in memory.A.mem
      modifies sched`S, sched`running, sched.readyQueue, sched.memBlockedQueue, sched.msgBlockedQueue, sched.nodes
      modifies memory`A, memory.nodes`pid, memory.ram, mailbox, this`mail
      ensures Valid() && (View(), 0) == Send(old(View()), pid, envelope)
    {
      hide Steady, Scheduler.Valid, Allocator.Valid, Addressed, Boxed, UnblockPid;
      SteadyRuns(sched.S);
      FillHeader(pid, envelope);
      Post(envelope);
      sched.UnblockProcessByPid(pid, true);
    }

    // The message goes into the first empty slot of the mailbox.
    method Post(envelope: Addr)
      requires Valid() && envelope != NULL
      modifies mailbox, this`mail
      ensures Valid() && mail == Store(old(mail), envelope, mailbox.Length)
    {
      hide Scheduler.Valid, Allocator.Valid, Boxed;
      var _ := StoreEntry(mailbox, mail, envelope);
      mail := Store(mail, envelope, mailbox.Length);
    }

    // delayed_send_handler
    method DelayedSendMessage(pid: Pid, envelope: Addr, delay: nat) returns (code: int, stray: bool)
      requires Valid() && Sound(View()) && pid < WORD && delay < WORD
      modifies memory`A, memory.nodes`pid, memory.ram, delayedMailbox, this`late
      ensures Valid() && old(View()).Current() < WORD
      ensures stray <==> SendCode(old(View()), pid, envelope) == 0 && !old(View()).alloc.Knows(envelope)
      ensures if stray then View() == old(View()) else (View(), code) == DelayedSend(old(View()), pid, envelope, delay)
    {
      hide Valid, Sound, Steady, DelayedSend, SendCode;
      SoundRuns();
      code, stray := Judge(pid, envelope);
      if code != 0 || stray {
        Refused(View(), pid, envelope, delay);
        return;
      }
      AcceptDelayed(pid, envelope, delay);
    }

    method AcceptDelayed(pid: Pid, envelope: Addr, delay: nat)
      requires Valid() && Sound(View()) && pid < WORD && View().Current() < WORD
      requires SendCode(View(), pid, envelope) == 0 && memory.A.Knows(envelope) && envelope in memory.A.mem
      modifies memory`A, memory.nodes`pid, memory.ram, delayedMailbox, this`late
      ensures Valid() && (View(), 0) == DelayedSend(old(View()), pid, envelope, delay)
    {
      hide Steady, Scheduler.Valid, Allocator.Valid, Addressed, PutWord, Boxed;
      FillHeader(pid, envelope);
      var now := GetTime();
      StoreNext(envelope, SEND_TIME, (delay + now) % WORD, old(memory.A),
                Addressed(old(memory.A).Mem(envelope), pid, old(View()).Current()), pid);
      Postpone(envelope);
    }

    method Postpone(envelope: Addr)
      requires Valid() && envelope != NULL
      modifies delayedMailbox, this`late
      ensures Valid() && late == Store(old(late), envelope, delayedMailbox.Length)
    {
      hide Scheduler.Valid, Allocator.Valid, Boxed;
      var _ := StoreEntry(delayedMailbox, late, envelope);
      late := Store(late, envelope, delayedMailbox.Length);
    }

    // get_time
    method GetTime() returns (now: nat)
      ensures now == ticks
    {
      return ticks;
    }

    // The scan of the mailbox for the first message to pid; it stops at an empty slot.
    method FindMessage(pid: Pid) returns (i: nat, found: bool)
      requires Valid() && Sound(View())
      ensures var first := FirstIndex(mail, View().For(pid)); found == (first < |mail|) && (found ==> i == first)
    {
      hide Steady, Scheduler.Valid, Allocator.Valid, Word, FirstIndex;
      i := 0;
      memory.KnownMeans();
      while i < mailbox.Length
        invariant 0 <= i <= |mail| && forall j | 0 <= j < i :: !View().For(pid)(mail[j])
      {
        var envelope := mailbox[i];
        if envelope == NULL {
          break;
        }
        assert envelope == mail[i] && envelope in mail;
        var rx := memory.LoadWord(envelope, RX);
        if rx == pid {
          FirstIs(mail, View().For(pid), i);
          return i, true;
        }
        i := i + 1;
      }
      FirstIs(mail, View().For(pid), i);
      return i, false;
    }

    // receive_message_handler, which receive_message repeats until it gets a message
    method ReceiveMessage() returns (envelope: Addr)
      requires Valid() && Sound(View()) && View().Current() != NULL_PID
      modifies sched`S, sched`running, sched.readyQueue, sched.memBlockedQueue, sched.msgBlockedQueue, sched.nodes
      modifies mailbox, this`mail
      ensures Valid() && View() == Receive(old(View())).0
      ensures envelope == if Receive(old(View())).1 == None then NULL else Receive(old(View())).1.value
      ensures envelope == NULL <==> Receive(old(View())).1 == None
    {
      hide Steady, Sound, Valid, Scheduler.Valid, Allocator.Valid, BlockRunning, FirstIndex, Drop;
      SoundRuns();
      var pid := sched.GetCurrentPid();
      var i, found := FindMessage(pid);
      if found {
        envelope := TakeMessage(i);
        return;
      }
      Sleep(pid, MsgQ);
      return NULL;
    }

    // The message in slot i leaves the mailbox, which closes up.
    method TakeMessage(i: nat) returns (envelope: Addr)
      requires Valid() && i < |mail|
      modifies mailbox, this`mail
      ensures Valid() && mail == Drop(old(mail), i) && envelope == old(mail)[i] && envelope != NULL
    {
      hide Scheduler.Valid, Allocator.Valid, Drop;
      envelope := mailbox[i];
      assert envelope in mail;
      var _ := RemoveEntry(mailbox, mail, i);
      mail := Drop(mail, i);
    }

    // Trap #0, #8 and the end of a process.
    method ReleaseProcessor()
      requires Valid() && Sound(View())
      modifies sched`S, sched`running, sched.readyQueue, sched.nodes
      ensures Valid() && View() == Yield(old(View()))
    {
      hide Steady, Scheduler.Valid, Allocator.Valid, Boxed;
      SteadyRuns(sched.S);
      RunningIsFree(sched.S);
      sched.ReleaseProcessor();
    }

    method SetProcessPriority(pid: int, priority: int) returns (code: int)
      requires Valid() && Sound(View())
      modifies sched`S, sched`running, sched.readyQueue, sched.memBlockedQueue, sched.msgBlockedQueue, sched.nodes
      ensures Valid() && (View(), code) == ChangePriority(old(View()), pid, priority)
    {
      hide Steady, Scheduler.Valid, Allocator.Valid, Boxed;
      SteadyRuns(sched.S);
      code := sched.SetProcessPriority(pid, priority);
    }

    method TerminateProcess()
      requires Valid() && Sound(View()) && View().Current() != NULL_PID
      modifies sched`S, sched`running, sched`byPid, sched`nodes
      modifies sched.readyQueue, sched.memBlockedQueue, sched.msgBlockedQueue, sched.nodes
      ensures Valid() && View() == Exit(old(View())) && sched.nodes <= old(sched.nodes)
    {
      hide Steady, Scheduler.Valid, Allocator.Valid, Boxed;
      SteadyRuns(sched.S);
      sched.TerminateRunning();
    }

    // A store by the running process into a block.
    method WriteBlock(ptr: Addr, block: Block)
      requires Valid() && ptr in memory.A.mem
      modifies memory`A, memory.ram
      ensures Valid() && View() == old(View()).(alloc := Write(old(View()).alloc, ptr, block))
    {
      hide Scheduler.Valid, Allocator.Valid, Boxed;
      memory.KnownMeans();
      memory.StoreBlock(ptr, block);
    }

    // ---------- the timer ----------

    // One due entry moves to the end of the mailbox and the delayed mailbox closes
    // up. j is its new slot, k the slot where the shift loop stopped.
    method MoveEntry(i: nat) returns (j: nat, k: nat)
      requires Valid() && i < |late| && |mail| < mailbox.Length
      modifies mailbox, delayedMailbox, this`mail, this`late
      ensures Valid() && mail == old(mail) + [old(late)[i]] && late == Drop(old(late), i)
      ensures j == |old(mail)| && j < mailbox.Length && mailbox[j] == old(late)[i] && k == |old(late)|
    {
      hide Scheduler.Valid, Allocator.Valid;
      assert late[i] in late;
      j := StoreEntry(mailbox, mail, delayedMailbox[i]);
      mail := mail + [late[i]];
      k := RemoveEntry(delayedMailbox, late, i);
      late := Drop(late, i);
    }

    // The receiver of a moved message is woken, without releasing the processor.
    method WakeReceiver(rx: Pid, best: nat) returns (highest: nat)
      requires Valid() && Shape(sched.S) && Idle(sched.S)
      requires sched.S.running.Some? && sched.S.procs[sched.S.running.value].state == Ready
      modifies sched`S, sched`running, sched.readyQueue, sched.memBlockedQueue, sched.msgBlockedQueue, sched.nodes
      ensures Valid() && sched.S == Wake(old(sched.S), rx)
      ensures highest == if CanWake(old(sched.S), rx) && old(sched.S).procs[rx].priority < best
                         then old(sched.S).procs[rx].priority else best
    {
      hide Shape, Idle, Scheduler.Valid, Allocator.Valid, Boxed;
      highest := best;
      var blocked := sched.IsProcessBlocked(rx);
      if blocked {
        WokenPriority(sched.S, rx);
        sched.UnblockProcessByPid(rx, false);
        var priority := sched.GetProcessPriority(rx);
        if priority < highest {
          highest := priority;
        }
      }
    }

    // The due entry in slot i is moved and its receiver is woken; m is the slot
    // where the shift loop stopped. k is the state in which the sweep began.
    method DeliverEntry(i: nat, best: nat, ghost k: Kernel, ghost moved: seq<Addr>)
      returns (m: nat, highest: nat)
      requires Valid() && i < |late| && |mail| < mailbox.Length && late[i] in memory.A.mem
      requires Steady(k.sched) && k.alloc == memory.A
      requires sched.S == WakeAll(k.sched, Receivers(k, moved)) && best == BestWoken(k.sched, Receivers(k, moved))
      modifies sched`S, sched`running, sched.readyQueue, sched.memBlockedQueue, sched.msgBlockedQueue, sched.nodes
      modifies mailbox, delayedMailbox, this`mail, this`late
      ensures Valid() && mail == old(mail) + [old(late)[i]] && late == Drop(old(late), i) && m == |old(late)|
      ensures sched.S == WakeAll(k.sched, Receivers(k, moved + [old(late)[i]]))
      ensures highest == BestWoken(k.sched, Receivers(k, moved + [old(late)[i]]))
    {
      hide Steady, Shape, Idle, Scheduler.Valid, Allocator.Valid, Boxed, Word, Wake;
      ghost var entry := late[i];
      var j;
      j, m := MoveEntry(i);
      memory.KnownMeans();
      var rx := memory.LoadWord(mailbox[j], RX);
      WakeOneMore(k, moved, entry);
      highest := WakeReceiver(rx, best);
    }

    // The entry in slot i of the delayed mailbox, and whether it is due.
    method IsDue(i: nat) returns (due: bool)
      requires Valid() && Posted(View()) && i < delayedMailbox.Length
      ensures due <==> i < |late| && View().Due(ticks)(late[i])
    {
      hide Scheduler.Valid, Allocator.Valid, Word;
      assert i < |late| ==> late[i] in late;
      var entry := delayedMailbox[i];
      if entry == NULL {
        return false;
      }
      memory.KnownMeans();
      var sendTime := memory.LoadWord(entry, SEND_TIME);
      return sendTime <= ticks;
    }

    // In the middle of a sweep that began in state k: `moved` has gone to the mailbox,
    // `kept` was passed, `rest` is still to come.
    ghost predicate Midway(k: Kernel, moved: seq<Addr>, kept: seq<Addr>, rest: seq<Addr>)
      reads this, sched, sched.readyQueue, sched.memBlockedQueue, sched.msgBlockedQueue, sched.nodes
      reads memory, memory.ram, memory.nodes, mailbox, delayedMailbox
    {
      && Valid() && Steady(k.sched) && k.alloc == memory.A && k.cap == mailbox.Length && k.ticks == ticks
      && mail == k.mailbox + moved && late == kept + rest && Posted(View())
      && OnTrack(k.delayed, k.Due(k.ticks), k.cap, moved, kept, rest)
      && sched.S == WakeAll(k.sched, Receivers(k, moved))
    }

    // check_existing_delayed_message
    method CheckExistingDelayedMessage()
      requires Valid() && Sound(View())
      modifies sched`S, sched`running, sched.readyQueue, sched.memBlockedQueue, sched.msgBlockedQueue, sched.nodes
      modifies mailbox, delayedMailbox, this`mail, this`late
      ensures Valid()
      ensures var k := old(View()); var swept := Sweep(k.delayed, k.Due(k.ticks), k.cap);
        View() == k.(mailbox := k.mailbox + swept.moved, delayed := swept.kept,
                     sched := WakeMany(k.sched, Receivers(k, swept.moved)))
    {
      hide Steady, Valid, Midway, Sweep, WakeAll, BestWoken, WakeMany, OnTrack, Receivers, Posted;
      ghost var k := View();
      ghost var moved: seq<Addr>, kept: seq<Addr>, rest: seq<Addr> := [], [], late;
      BeginSweep(k);
      var highest := NULL_PRIORITY;
      var i: int := 0;
      while i < delayedMailbox.Length
        invariant Midway(k, moved, kept, rest) && 0 <= i
        invariant i == |kept| || (i > |kept| && rest == [])
        invariant highest == BestWoken(k.sched, Receivers(k, moved))
        decreases |rest|, delayedMailbox.Length - i
      {
        var isDue := AtEntry(i, k, moved, kept, rest);
        if isDue {
          i, highest, moved, kept, rest := SweepDue(i, highest, k, moved, kept, rest);
        } else if rest != [] {
          KeepEntry(k, moved, kept, rest);
          kept, rest := kept + [rest[0]], rest[1..];
        }
        i := i + 1;
      }
      EndSweep(k, moved, kept, rest);
      Finish(highest, k, moved);
    }

    lemma BeginSweep(k: Kernel)
      requires Valid() && Sound(View()) && k == View()
      ensures Midway(k, [], [], late) && BestWoken(k.sched, Receivers(k, [])) == NULL_PRIORITY
    {
      hide Scheduler.Valid, Allocator.Valid, Boxed, Steady, OnTrack;
      StartOnTrack(late, k.Due(k.ticks), k.cap);
      NobodyWoken(k);
    }

    lemma KeepEntry(k: Kernel, moved: seq<Addr>, kept: seq<Addr>, rest: seq<Addr>)
      requires Midway(k, moved, kept, rest) && rest != [] && !k.Due(k.ticks)(rest[0])
      ensures Midway(k, moved, kept + [rest[0]], rest[1..])
    {
      hide Scheduler.Valid, Allocator.Valid, Boxed, Steady, OnTrack, WakeAll, Receivers;
      KeepOnTrack(k.delayed, k.Due(k.ticks), k.cap, moved, kept, rest);
      assert kept + rest == kept + [rest[0]] + rest[1..];
    }

    lemma EndSweep(k: Kernel, moved: seq<Addr>, kept: seq<Addr>, rest: seq<Addr>)
      requires Midway(k, moved, kept, rest) && (rest == [] || |kept| >= delayedMailbox.Length)
      ensures Valid() && Steady(k.sched) && sched.S == WakeAll(k.sched, Receivers(k, moved))
      ensures Sweep(k.delayed, k.Due(k.ticks), k.cap) == Swept(moved, late)
      ensures memory.A == k.alloc && mail == k.mailbox + moved && k.cap == mailbox.Length && k.ticks == ticks
    {
      hide Scheduler.Valid, Allocator.Valid, Boxed, Steady, OnTrack, WakeAll, Receivers, Sweep;
      assert kept + [] == kept;
      EndOnTrack(k.delayed, k.Due(k.ticks), k.cap, moved, kept, rest);
    }

    // Whether the entry in slot i, the next one to come, is due.
    method AtEntry(i: nat, ghost k: Kernel, ghost moved: seq<Addr>, ghost kept: seq<Addr>, ghost rest: seq<Addr>)
      returns (due: bool)
      requires Midway(k, moved, kept, rest) && i < delayedMailbox.Length
      requires i == |kept| || (i > |kept| && rest == [])
      ensures due <==> i == |kept| && rest != [] && k.Due(k.ticks)(rest[0])
    {
      hide Scheduler.Valid, Allocator.Valid, Boxed, Steady, OnTrack, WakeAll, Receivers, SendTime;
      due := IsDue(i);
    }

    // A due entry moves; the index is stepped back unless the shift loop went to the
    // end of the array, which passes over the next entry.
    method SweepDue(i: nat, best: nat, ghost k: Kernel,
                    ghost moved: seq<Addr>, ghost kept: seq<Addr>, ghost rest: seq<Addr>)
      returns (i': int, highest: nat, ghost moved': seq<Addr>, ghost kept': seq<Addr>, ghost rest': seq<Addr>)
      requires Midway(k, moved, kept, rest) && i == |kept| && rest != [] && k.Due(k.ticks)(rest[0])
      requires best == BestWoken(k.sched, Receivers(k, moved))
      modifies sched`S, sched`running, sched.readyQueue, sched.memBlockedQueue, sched.msgBlockedQueue, sched.nodes
      modifies mailbox, delayedMailbox, this`mail, this`late
      ensures Midway(k, moved', kept', rest') && highest == BestWoken(k.sched, Receivers(k, moved'))
      ensures i' + 1 >= 0 && |rest'| < |rest| && (i' + 1 == |kept'| || (i' + 1 > |kept'| && rest' == []))
    {
      hide Steady, Scheduler.Valid, Allocator.Valid, Boxed, WakeAll, BestWoken, OnTrack, Drop, SendTime, Receivers;
      assert late[i] == rest[0] && late[i] in late;
      DropFirst(kept, rest);
      var m;
      m, highest := DeliverEntry(i, best, k, moved);
      i' := i;
      if m != delayedMailbox.Length && m != i + 1 {
        i' := i - 1;
      }
      if m == delayedMailbox.Length && m != i + 1 {
        PassOnTrack(k.delayed, k.Due(k.ticks), k.cap, moved, kept, rest);
        moved', kept', rest' := moved + [rest[0]], kept + [rest[1]], rest[2..];
      } else {
        MoveOnTrack(k.delayed, k.Due(k.ticks), k.cap, moved, kept, rest);
        moved', kept', rest' := moved + [rest[0]], kept, rest[1..];
      }
    }

    // The processor is released once, if somebody more urgent was woken.
    method Finish(highest: nat, ghost k: Kernel, ghost moved: seq<Addr>)
      requires Valid() && Steady(k.sched)
      requires sched.S == WakeAll(k.sched, Receivers(k, moved)) && highest == BestWoken(k.sched, Receivers(k, moved))
      modifies sched`S, sched`running, sched.readyQueue, sched.nodes
      ensures Valid() && sched.S == WakeMany(k.sched, Receivers(k, moved))
    {
      hide Queued, NoneBefore, Idle, Scheduler.Valid, Allocator.Valid, Boxed, WakeAll, BestWoken, Receivers, Switch;
      WakeAllShape(k.sched, Receivers(k, moved));
      var current := sched.GetCurrentPid();
      var priority := sched.GetProcessPriority(current);
      if highest < priority {
        RunningIsFree(sched.S);
        sched.ReleaseProcessor();
      }
    }

    // timer_isr
    method TimerInterrupt()
      requires Valid() && Sound(View())
      modifies sched`S, sched`running, sched.readyQueue, sched.memBlockedQueue, sched.msgBlockedQueue, sched.nodes
      modifies mailbox, delayedMailbox, this`mail, this`late, this`ticks
      ensures Valid() && View() == Tick(old(View()))
    {
      hide Steady, Scheduler.Valid, Allocator.Valid, Boxed, Sweep, WakeMany;
      ticks := (ticks + 1) % WORD;
      CheckExistingDelayedMessage();
    }
  }

  // A refused message changes nothing.
  lemma Refused(k: Kernel, pid: Pid, ptr: Addr, delay: nat)
    requires pid < WORD && k.Current() < WORD
    ensures SendCode(k, pid, ptr) != 0 ==> Send(k, pid, ptr) == (k, SendCode(k, pid, ptr))
    ensures SendCode(k, pid, ptr) != 0 ==> DelayedSend(k, pid, ptr, delay) == (k, SendCode(k, pid, ptr))
  {
  }

  // One more message in the series of wake-ups.
  lemma WakeOneMore(k: Kernel, moved: seq<Addr>, ptr: Addr)
    requires Steady(k.sched) && ptr in k.alloc.mem
    ensures var s, rx := WakeAll(k.sched, Receivers(k, moved)), Rx(k.alloc.mem[ptr]);
      && Shape(s) && Idle(s) && s.running.Some? && s.running.value in s.procs && s.procs[s.running.value].state == Ready
      && WakeAll(k.sched, Receivers(k, moved + [ptr])) == Wake(s, rx)
    ensures var s, rx := WakeAll(k.sched, Receivers(k, moved)), Rx(k.alloc.mem[ptr]);
      var best := BestWoken(k.sched, Receivers(k, moved));
      BestWoken(k.sched, Receivers(k, moved + [ptr])) ==
        if CanWake(s, rx) && s.procs[rx].priority < best then s.procs[rx].priority else best
  {
    hide Queued, NoneBefore, Idle, Wake, Rx;
    WakeAllShape(k.sched, Receivers(k, moved));
    assert Receivers(k, moved + [ptr]) == Receivers(k, moved) + [Rx(k.alloc.Mem(ptr))];
  }

  lemma WokenPriority(s: Sched, pid: Pid)
    requires Shape(s) && Idle(s) && CanWake(s, pid) && s.running.Some? && !IsBlocked(s.procs[s.running.value].state)
    ensures Shape(Wake(s, pid)) && GetPriority(Wake(s, pid), pid) == s.procs[pid].priority
    ensures UnblockPid(s, pid, false) == Wake(s, pid)
  {
    WakeShape(s, pid);
  }

  lemma DropFirst(kept: seq<Addr>, rest: seq<Addr>)
    requires rest != []
    ensures Drop(kept + rest, |kept|) == kept + rest[1..]
    ensures |rest| > 1 ==> kept + rest[1..] == kept + [rest[1]] + rest[2..]
  {
  }

  lemma NobodyWoken(k: Kernel)
    ensures Receivers(k, []) == [] && WakeAll(k.sched, []) == k.sched && BestWoken(k.sched, []) == NULL_PRIORITY
  {
  }

  // Of two writes to a block the second counts.
  lemma WriteAgain(a: Alloc, ptr: Addr, first: Block, second: Block, pid: Pid)
    ensures Write(Reassign(Write(a, ptr, first), ptr, pid), ptr, second) == Reassign(Write(a, ptr, second), ptr, pid)
    ensures Reassign(Write(a, ptr, first), ptr, pid).Mem(ptr) == first
  {
    assert a.mem[ptr := first][ptr := second] == a.mem[ptr := second];
  }

  lemma FirstIs(q: seq<Addr>, p: Addr -> bool, i: nat)
    requires i <= |q| && (i < |q| ==> p(q[i])) && forall j | 0 <= j < i :: !p(q[j])
    ensures FirstIndex(q, p) == i
  {
  }

  lemma SteadyRuns(s: Sched)
    requires Steady(s)
    ensures s.running.Some? && s.running.value in s.procs && s.running.value < WORD && Shape(s) && Idle(s)
    ensures s.procs[s.running.value].state == Ready
  {
  }
}
