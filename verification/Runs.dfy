// Runs of the kernel: every interleaving of traps by the running process and
// timer ticks, with the history the whole-run theorems speak about.
module Runs {
  import opened Rtx
  import opened Seqs
  import opened Envelope
  import opened SchedSpec
  import opened AllocSpec
  import opened SweepSpec
  import opened KernelSpec

  // Request and Receive are also the retries of a process that was woken inside
  // request_memory_block or receive_message. Write is a store by the running process.
  datatype Step =
    | Request | Receive | Release(ptr: Addr)
    | Send(pid: Pid, ptr: Addr) | DelayedSend(pid: Pid, ptr: Addr, delay: nat)
    | Reprioritize(target: int, priority: int) | Yield | Exit
    | Write(ptr: Addr, block: Block) | Tick

  // Where a process is: in its own code, or inside a call that has to retry.
  datatype Pc = Own | InRequest | InReceive

  // Where a block is.
  datatype Place = Free | Held(pid: Pid) | Mailed | Postponed

  datatype Msg = Msg(ptr: Addr, block: Block)
  datatype Delivery = Delivery(to: Pid, msg: Msg)
  datatype Issue = Issue(msg: Msg, tick: nat)

  // entered: messages in the order they came into the mailbox.
  // received: messages in the order they were handed to a process.
  // issued, matured: delayed messages in the order of the calls and of the moves.
  // punctual: no tick passed over a due message and no time has wrapped.
  // since: the step in which a process joined the list it waits in.
  datatype Hist = Hist(pc: map<Pid, Pc>, place: map<Addr, Place>,
                       entered: seq<Msg>, received: seq<Delivery>,
                       issued: seq<Issue>, matured: seq<Msg>, punctual: bool,
                       clock: nat, since: map<Pid, nat>)

  datatype World = World(k: Kernel, h: Hist)

  function MsgAt(a: Alloc, ptr: Addr): Msg {
    Msg(ptr, a.Mem(ptr))
  }

  function Msgs(a: Alloc, ptrs: seq<Addr>): seq<Msg> {
    seq(|ptrs|, i requires 0 <= i < |ptrs| => MsgAt(a, ptrs[i]))
  }

  predicate HeldBy(w: World, ptr: Addr, pid: Pid) {
    ptr in w.h.place && w.h.place[ptr] == Held(pid)
  }

  // ---------- client discipline ----------

  // A process calls the kernel from its own code, or repeats the call it is in.
  // It sends and writes only blocks it holds, and does not release a block that
  // is still on its way to it. The null process makes no calls.
  predicate Enabled(w: World, step: Step) {
    var pid := w.k.Current();
    pid < WORD &&
    (step.Tick? ||
    (&& w.k.sched.running.Some? && pid != NULL_PID && pid in w.k.sched.procs && pid in w.h.pc
     && CallAllowed(w.h.pc[pid], step) && BlocksAllowed(w, pid, step)))
  }

  predicate CallAllowed(pc: Pc, step: Step) {
    match step
    case Request => pc != InReceive
    case Receive => pc != InRequest
    case _ => pc == Own
  }

  predicate BlocksAllowed(w: World, pid: Pid, step: Step) {
    match step
    case Release(ptr) => GiveCode(w.k.alloc, ptr, pid) == 0 ==> HeldBy(w, ptr, pid)
    case Send(to, ptr) => to < WORD && (SendCode(w.k, to, ptr) == 0 ==> HeldBy(w, ptr, pid))
    case DelayedSend(to, ptr, delay) =>
      to < WORD && delay < WORD && (SendCode(w.k, to, ptr) == 0 ==> HeldBy(w, ptr, pid))
    case Write(ptr, _) => HeldBy(w, ptr, pid)
    case _ => true
  }

  // ---------- the effect of a step ----------

  function DoRequest(w: World): World
    requires Enabled(w, Request)
  {
    var (k, got) := KernelSpec.Request(w.k);
    var pid := w.k.Current();
    World(k, if got == None then w.h.(pc := w.h.pc[pid := InRequest])
             else w.h.(pc := w.h.pc[pid := Own], place := w.h.place[got.value := Held(pid)]))
  }

  function DoReceive(w: World): World
    requires Enabled(w, Receive)
  {
    var (k, got) := KernelSpec.Receive(w.k);
    var pid := w.k.Current();
    World(k, if got == None then w.h.(pc := w.h.pc[pid := InReceive])
             else w.h.(pc := w.h.pc[pid := Own], place := w.h.place[got.value := Held(pid)],
                       received := w.h.received + [Delivery(pid, MsgAt(w.k.alloc, got.value))]))
  }

  function DoRelease(w: World, ptr: Addr): World {
    var (k, code) := KernelSpec.Release(w.k, ptr);
    World(k, if code != 0 then w.h else w.h.(place := w.h.place[ptr := Free]))
  }

  function DoSend(w: World, pid: Pid, ptr: Addr): World
    requires pid < WORD && w.k.Current() < WORD
  {
    var (k, code) := KernelSpec.Send(w.k, pid, ptr);
    World(k, if code != 0 then w.h
             else w.h.(place := w.h.place[ptr := Mailed], entered := w.h.entered + [MsgAt(k.alloc, ptr)]))
  }

  function DoDelayedSend(w: World, pid: Pid, ptr: Addr, delay: nat): World
    requires pid < WORD && w.k.Current() < WORD
  {
    var (k, code) := KernelSpec.DelayedSend(w.k, pid, ptr, delay);
    World(k, if code != 0 then w.h
             else w.h.(place := w.h.place[ptr := Postponed],
                       issued := w.h.issued + [Issue(MsgAt(k.alloc, ptr), w.k.ticks)],
                       punctual := w.h.punctual && delay + w.k.ticks < WORD))
  }

  function SweptAt(k: Kernel): Swept<Addr> {
    Sweep(k.delayed, k.Due((k.ticks + 1) % WORD), k.cap)
  }

  function Matured(place: map<Addr, Place>, moved: seq<Addr>): map<Addr, Place> {
    map p | p in place :: if p in moved then Mailed else place[p]
  }

  function DoTick(w: World): World {
    var moved := SweptAt(w.k).moved;
    World(KernelSpec.Tick(w.k),
          w.h.(place := Matured(w.h.place, moved),
               entered := w.h.entered + Msgs(w.k.alloc, moved),
               matured := w.h.matured + Msgs(w.k.alloc, moved),
               punctual := w.h.punctual && w.k.ticks + 1 < WORD
                           && !Skips(w.k.delayed, w.k.Due((w.k.ticks + 1) % WORD), w.k.cap)))
  }

  function Effect(w: World, step: Step): World
    requires Enabled(w, step)
  {
    match step
    case Request => DoRequest(w)
    case Receive => DoReceive(w)
    case Release(ptr) => DoRelease(w, ptr)
    case Send(pid, ptr) => DoSend(w, pid, ptr)
    case DelayedSend(pid, ptr, delay) => DoDelayedSend(w, pid, ptr, delay)
    case Reprioritize(pid, priority) => w.(k := ChangePriority(w.k, pid, priority).0)
    case Yield => w.(k := KernelSpec.Yield(w.k))
    case Exit => w.(k := KernelSpec.Exit(w.k))
    case Write(ptr, block) => w.(k := w.k.(alloc := AllocSpec.Write(w.k.alloc, ptr, block)))
    case Tick => DoTick(w)
  }

  // Whoever was in its list before the step keeps its stamp.
  function Joined(s: Sched, s': Sched, h: Hist): map<Pid, nat> {
    map p | p in s'.procs :: if p in s.Q(Home(s', p)) && p in h.since then h.since[p] else h.clock
  }

  function Do(w: World, step: Step): World
    requires Enabled(w, step)
  {
    var v := Effect(w, step);
    v.(h := v.h.(clock := w.h.clock + 1, since := Joined(w.k.sched, v.k.sched, w.h)))
  }

  // ---------- runs ----------

  ghost predicate Legal(w: World, steps: seq<Step>)
    decreases |steps|
  {
    steps == [] || (Enabled(w, steps[0]) && Legal(Do(w, steps[0]), steps[1..]))
  }

  ghost function Run(w: World, steps: seq<Step>): World
    requires Legal(w, steps)
    decreases |steps|
  {
    if steps == [] then w else Run(Do(w, steps[0]), steps[1..])
  }

  // What the process that made the call gets back: a code, or a pointer that is null
  // when the process was put to sleep.
  datatype Outcome = Code(code: int) | Pointer(ptr: Addr) | Nothing

  function Pointed(got: Option<Addr>): Outcome {
    Pointer(if got.Some? then got.value else NULL)
  }

  function Answer(w: World, step: Step): Outcome
    requires Enabled(w, step)
  {
    match step
    case Request => Pointed(KernelSpec.Request(w.k).1)
    case Receive => Pointed(KernelSpec.Receive(w.k).1)
    case Release(ptr) => Code(KernelSpec.Release(w.k, ptr).1)
    case Send(pid, ptr) => Code(KernelSpec.Send(w.k, pid, ptr).1)
    case DelayedSend(pid, ptr, delay) => Code(KernelSpec.DelayedSend(w.k, pid, ptr, delay).1)
    case Reprioritize(pid, priority) => Code(ChangePriority(w.k, pid, priority).1)
    case _ => Nothing
  }

  ghost function Answers(w: World, steps: seq<Step>): seq<Outcome>
    requires Legal(w, steps)
    decreases |steps|
  {
    if steps == [] then [] else [Answer(w, steps[0])] + Answers(Do(w, steps[0]), steps[1..])
  }

  // ---------- the kernel's invariants ----------

  // Every block is in one place, its lists agree with that place, and a message
  // on its way is already owned by its receiver.
  ghost predicate BlocksOk(k: Kernel, place: map<Addr, Place>) {
    && |place| == k.cap && NULL !in place
    && Lists(FreeBlocks, k.alloc.free, place)
    && Lists(UsedBlocks, k.alloc.used, place)
    && Lists(Mailbox, k.mailbox, place)
    && Lists(DelayedMailbox, k.delayed, place)
    && OwnersOk(k.alloc, place)
  }

  datatype Listing = FreeBlocks | UsedBlocks | Mailbox | DelayedMailbox

  predicate Listed(listing: Listing, place: Place) {
    match listing
    case FreeBlocks => place.Free?
    case UsedBlocks => !place.Free?
    case Mailbox => place.Mailed?
    case DelayedMailbox => place.Postponed?
  }

  // q lists, each once, exactly the blocks whose place belongs to the listing.
  ghost predicate Lists(listing: Listing, q: seq<Addr>, place: map<Addr, Place>) {
    NoDup(q) && forall p :: p in q <==> p in place && Listed(listing, place[p])
  }

  ghost predicate OwnersOk(a: Alloc, place: map<Addr, Place>) {
    && a.owner.Keys == place.Keys && a.mem.Keys == place.Keys
    && forall p | p in place && !place[p].Free? ::
         a.owner[p] == if place[p].Held? then place[p].pid else Rx(a.mem[p])
  }

  // A process waits only inside the call that put it to sleep.
  ghost predicate PcOk(s: Sched, pc: map<Pid, Pc>) {
    && (forall p | p in s.procs && p != MAIN_PID :: p in pc)
    && (forall p | p in s.procs && p in pc ::
          && (s.procs[p].state == BlockedMem ==> pc[p] == InRequest)
          && (s.procs[p].state == BlockedMsg ==> pc[p] == InReceive))
  }

  ghost predicate Core(w: World) {
    Steady(w.k.sched) && BlocksOk(w.k, w.h.place) && PcOk(w.k.sched, w.h.pc) && w.k.ticks < WORD
  }

  // ---------- the lists and the two mailboxes never overflow ----------

  lemma Room(k: Kernel, place: map<Addr, Place>)
    requires BlocksOk(k, place)
    ensures |k.mailbox| + |k.delayed| <= k.cap
    ensures forall ptr | ptr in place && !place[ptr].Mailed? && !place[ptr].Postponed? ::
      |k.mailbox| + |k.delayed| < k.cap
  {
    NoDupConcat(k.mailbox, k.delayed);
    NoDupBound(k.mailbox + k.delayed, place.Keys);
    forall ptr | ptr in place && !place[ptr].Mailed? && !place[ptr].Postponed?
      ensures |k.mailbox| + |k.delayed| < k.cap
    {
      NoDupConcat(k.mailbox + k.delayed, [ptr]);
      NoDupBound(k.mailbox + k.delayed + [ptr], place.Keys);
    }
  }
}
