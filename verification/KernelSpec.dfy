// The memory allocator of mem.c as functions on values.
module AllocSpec {
  import opened Rtx
  import opened Seqs
  import opened Envelope

  const NO_OWNER: int := -1

  datatype Alloc = Alloc(free: seq<Addr>, used: seq<Addr>, owner: map<Addr, int>, mem: map<Addr, Block>) {
    // void_to_block finds a pointer in one of the two lists.
    predicate Knows(ptr: Addr) {
      ptr in free || ptr in used
    }

    function Owner(ptr: Addr): int {
      if ptr in owner then owner[ptr] else NO_OWNER
    }

    function Mem(ptr: Addr): Block {
      if ptr in mem then mem[ptr] else Zeros(MEM_BLOCK_SIZE)
    }
  }

  // The successful part of request_memory_block_handler.
  function Take(a: Alloc, pid: Pid): Alloc
    requires a.free != []
  {
    a.(free := a.free[1..], used := a.used + [a.free[0]], owner := a.owner[a.free[0] := pid])
  }

  function GiveCode(a: Alloc, ptr: Addr, pid: Pid): int {
    if a.used == [] then 1
    else if !a.Knows(ptr) then 2
    else if ptr in a.free || a.Owner(ptr) != pid then 3
    else 0
  }

  // release_memory_handler up to the wake-up
  function Give(a: Alloc, ptr: Addr, pid: Pid): Alloc {
    if GiveCode(a, ptr, pid) != 0 then a
    else a.(free := a.free + [ptr], used := Without(a.used, ptr), owner := a.owner[ptr := NO_OWNER],
            mem := a.mem[ptr := Zeros(MEM_BLOCK_SIZE)])
  }

  // One block gets other bytes, or another owner.
  function Write(a: Alloc, ptr: Addr, block: Block): Alloc {
    a.(mem := a.mem[ptr := block])
  }

  function Reassign(a: Alloc, ptr: Addr, pid: Pid): Alloc {
    a.(owner := a.owner[ptr := pid])
  }
}

// The trap handlers of mem.c, messaging.c and core.c, and the timer tick, each as
// one function from the state before the trap to the state after it.
module KernelSpec {
  import opened Rtx
  import opened Seqs
  import opened Envelope
  import opened SchedSpec
  import opened AllocSpec
  import opened SweepSpec

  // cap is MEM_BLOCK_COUNT: the number of blocks and the size of both mailboxes.
  datatype Kernel = Kernel(sched: Sched, alloc: Alloc, mailbox: seq<Addr>, delayed: seq<Addr>,
                           ticks: nat, cap: nat)
  {
    function Current(): Pid {
      if sched.running.Some? then sched.running.value else MAIN_PID
    }

    function For(pid: Pid): Addr -> bool {
      (ptr: Addr) => Rx(alloc.Mem(ptr)) == pid
    }

    function Due(now: nat): Addr -> bool {
      (ptr: Addr) => SendTime(alloc.Mem(ptr)) <= now
    }
  }

  // A mailbox store takes the first empty slot, and is dropped when there is none.
  function Store(box: seq<Addr>, ptr: Addr, cap: nat): seq<Addr> {
    if |box| < cap then box + [ptr] else box
  }

  function Request(k: Kernel): (Kernel, Option<Addr>)
    requires k.Current() in k.sched.procs && k.sched.running.Some?
  {
    if k.alloc.free == [] then (k.(sched := BlockRunning(k.sched, MemQ)), None)
    else (k.(alloc := Take(k.alloc, k.Current())), Some(k.alloc.free[0]))
  }

  function Release(k: Kernel, ptr: Addr): (Kernel, int) {
    var code := GiveCode(k.alloc, ptr, k.Current());
    if code != 0 then (k, code)
    else (k.(alloc := Give(k.alloc, ptr, k.Current()), sched := UnblockType(k.sched, MemQ)), 0)
  }

  function SendCode(k: Kernel, pid: Pid, ptr: Addr): int {
    if ptr == NULL then 2 else if !Found(k.sched, pid) then 1 else 0
  }

  function Send(k: Kernel, pid: Pid, ptr: Addr): (Kernel, int)
    requires pid < WORD && k.Current() < WORD
  {
    var code := SendCode(k, pid, ptr);
    if code != 0 then (k, code)
    else
      var block := Addressed(k.alloc.Mem(ptr), pid, k.Current());
      (k.(alloc := Reassign(Write(k.alloc, ptr, block), ptr, pid),
          mailbox := Store(k.mailbox, ptr, k.cap),
          sched := UnblockPid(k.sched, pid, true)), 0)
  }

  function Receive(k: Kernel): (Kernel, Option<Addr>)
    requires k.Current() in k.sched.procs && k.sched.running.Some?
  {
    var i := FirstIndex(k.mailbox, k.For(k.Current()));
    if i == |k.mailbox| then (k.(sched := BlockRunning(k.sched, MsgQ)), None)
    else (k.(mailbox := Drop(k.mailbox, i)), Some(k.mailbox[i]))
  }

  function DelayedSend(k: Kernel, pid: Pid, ptr: Addr, delay: nat): (Kernel, int)
    requires pid < WORD && k.Current() < WORD
  {
    var code := SendCode(k, pid, ptr);
    if code != 0 then (k, code)
    else
      var block := Stamped(k.alloc.Mem(ptr), pid, k.Current(), (delay + k.ticks) % WORD);
      (k.(alloc := Reassign(Write(k.alloc, ptr, block), ptr, pid),
          delayed := Store(k.delayed, ptr, k.cap)), 0)
  }

  // The receivers of the given messages, in order.
  function Receivers(k: Kernel, ptrs: seq<Addr>): seq<Pid> {
    seq(|ptrs|, i requires 0 <= i < |ptrs| => Rx(k.alloc.Mem(ptrs[i])))
  }

  // timer_isr with check_existing_delayed_message
  function Tick(k: Kernel): Kernel {
    var now := (k.ticks + 1) % WORD;
    var swept := Sweep(k.delayed, k.Due(now), k.cap);
    k.(ticks := now, mailbox := k.mailbox + swept.moved, delayed := swept.kept,
       sched := WakeMany(k.sched, Receivers(k, swept.moved)))
  }

  function Yield(k: Kernel): Kernel {
    k.(sched := Switch(k.sched))
  }

  function ChangePriority(k: Kernel, pid: int, priority: int): (Kernel, int) {
    var (s, code) := SetPriority(k.sched, pid, priority);
    (k.(sched := s), code)
  }

  function Exit(k: Kernel): Kernel
    requires k.sched.running.Some?
  {
    k.(sched := Terminate(k.sched))
  }
}
