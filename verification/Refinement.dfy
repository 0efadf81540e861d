// The pointer-level kernel performs exactly the runs of the model.
module Refinement {
  import opened Rtx
  import AllocSpec
  import opened KernelSpec
  import opened Boot
  import opened Runs
  import opened Reachable
  import opened SchedulerImpl
  import opened AllocatorImpl
  import opened KernelImpl

  // The vector table: which handler serves which step, and what the caller gets back.
  method Perform(x: Executive, step: Step, ghost w: World) returns (r: Outcome)
    requires x.Valid() && x.View() == w.k && Core(w) && Enabled(w, step)
    modifies x, x.sched, x.sched.readyQueue, x.sched.memBlockedQueue, x.sched.msgBlockedQueue, x.sched.nodes
    modifies x.memory, x.memory.ram, x.memory.nodes, x.mailbox, x.delayedMailbox
    ensures x.Valid() && x.View() == Effect(w, step).k && r == Answer(w, step)
    ensures x.sched.nodes <= old(x.sched.nodes) && x.memory.nodes == old(x.memory.nodes)
  {
    hide Core, Sound, Effect, Answer, Executive.Valid, Executive.View, Enabled;
    match step
    case Request => r := CallMemory(x, step, w);
    case Release(_) => r := CallMemory(x, step, w);
    case Write(_, _) => r := CallMemory(x, step, w);
    case Receive => r := CallMessages(x, step, w);
    case Send(_, _) => r := CallMessages(x, step, w);
    case DelayedSend(_, _, _) => r := CallMessages(x, step, w);
    case Reprioritize(_, _) => r := CallScheduler(x, step, w);
    case Yield => r := CallScheduler(x, step, w);
    case Exit => r := CallScheduler(x, step, w);
    case Tick => r := CallScheduler(x, step, w);
  }

  // The traps of mem.c, and a store into a block.
  method CallMemory(x: Executive, step: Step, ghost w: World) returns (r: Outcome)
    requires x.Valid() && x.View() == w.k && Core(w) && Enabled(w, step)
    requires step.Request? || step.Release? || step.Write?
    modifies x.sched, x.sched.readyQueue, x.sched.memBlockedQueue, x.sched.msgBlockedQueue, x.sched.nodes
    modifies x.memory, x.memory.ram, x.memory.nodes
    ensures x.Valid() && x.View() == Effect(w, step).k && r == Answer(w, step)
    ensures x.sched.nodes == old(x.sched.nodes) && x.memory.nodes == old(x.memory.nodes)
  {
    hide Core, Sound, Executive.Valid, Executive.View, Scheduler.Valid, Allocator.Valid, Enabled, Effect, Answer;
    hide KernelSpec.Request, KernelSpec.Release;
    Allowed(w, step);
    Meaning(w, step);
    x.ViewMeans();
    match step {
      case Request =>
        var block := x.RequestMemoryBlock();
        r := Pointer(block);
      case Release(ptr) =>
        var code := x.ReleaseMemoryBlock(ptr);
        r := Code(code);
      case Write(ptr, block) =>
        x.WriteBlock(ptr, block);
        r := Nothing;
    }
  }

  // The traps of messaging.c.
  method CallMessages(x: Executive, step: Step, ghost w: World) returns (r: Outcome)
    requires x.Valid() && x.View() == w.k && Core(w) && Enabled(w, step)
    requires step.Receive? || step.Send? || step.DelayedSend?
    modifies x`mail, x`late, x.mailbox, x.delayedMailbox
    modifies x.sched, x.sched.readyQueue, x.sched.memBlockedQueue, x.sched.msgBlockedQueue, x.sched.nodes
    modifies x.memory, x.memory.ram, x.memory.nodes
    ensures x.Valid() && x.View() == Effect(w, step).k && r == Answer(w, step)
    ensures x.sched.nodes == old(x.sched.nodes) && x.memory.nodes == old(x.memory.nodes)
  {
    hide Core, Sound, Executive.Valid, Executive.View, Scheduler.Valid, Allocator.Valid, Enabled, Effect, Answer;
    hide KernelSpec.Receive, KernelSpec.Send, KernelSpec.DelayedSend;
    Allowed(w, step);
    Meaning(w, step);
    x.ViewMeans();
    match step {
      case Receive =>
        var envelope := x.ReceiveMessage();
        r := Pointer(envelope);
      case Send(pid, ptr) =>
        var code, _ := x.SendMessage(pid, ptr);
        r := Code(code);
      case DelayedSend(pid, ptr, delay) =>
        var code, _ := x.DelayedSendMessage(pid, ptr, delay);
        r := Code(code);
    }
  }

  // The traps of core.c, and the timer interrupt.
  method CallScheduler(x: Executive, step: Step, ghost w: World) returns (r: Outcome)
    requires x.Valid() && x.View() == w.k && Core(w) && Enabled(w, step)
    requires step.Reprioritize? || step.Yield? || step.Exit? || step.Tick?
    modifies x, x.mailbox, x.delayedMailbox
    modifies x.sched, x.sched.readyQueue, x.sched.memBlockedQueue, x.sched.msgBlockedQueue, x.sched.nodes
    ensures x.Valid() && x.View() == Effect(w, step).k && r == Answer(w, step)
    ensures x.sched.nodes <= old(x.sched.nodes) && x.memory.nodes == old(x.memory.nodes)
  {
    hide Core, Sound, Executive.Valid, Executive.View, Scheduler.Valid, Allocator.Valid;
    hide ChangePriority, KernelSpec.Tick, KernelSpec.Yield, KernelSpec.Exit;
    Allowed(w, step);
    r := Nothing;
    match step {
      case Reprioritize(pid, priority) =>
        var code := x.SetProcessPriority(pid, priority);
        r := Code(code);
      case Yield =>
        x.ReleaseProcessor();
      case Exit =>
        x.TerminateProcess();
      case Tick =>
        x.TimerInterrupt();
    }
  }

  // A legal step meets the precondition of its handler.
  lemma Allowed(w: World, step: Step)
    requires Core(w) && Enabled(w, step)
    ensures Sound(w.k) && w.k.alloc.owner.Keys == w.k.alloc.mem.Keys
    ensures !step.Tick? ==> w.k.Current() != NULL_PID
    ensures step.Send? && SendCode(w.k, step.pid, step.ptr) == 0 ==>
      w.k.alloc.Knows(step.ptr) && step.ptr in w.k.alloc.mem
    ensures step.DelayedSend? && SendCode(w.k, step.pid, step.ptr) == 0 ==>
      w.k.alloc.Knows(step.ptr) && step.ptr in w.k.alloc.mem
    ensures step.Write? ==> step.ptr in w.k.alloc.mem
  {
    CoreIsSound(w);
  }

  // The step of the model that a trap stands for.
  lemma Meaning(w: World, step: Step)
    requires Enabled(w, step)
    ensures step.Request? ==>
      Effect(w, step).k == KernelSpec.Request(w.k).0 && Answer(w, step) == Pointed(KernelSpec.Request(w.k).1)
    ensures step.Release? ==>
      var (k, code) := KernelSpec.Release(w.k, step.ptr); Effect(w, step).k == k && Answer(w, step) == Code(code)
    ensures step.Receive? ==>
      Effect(w, step).k == KernelSpec.Receive(w.k).0 && Answer(w, step) == Pointed(KernelSpec.Receive(w.k).1)
    ensures step.Send? ==>
      var (k, code) := KernelSpec.Send(w.k, step.pid, step.ptr);
      step.pid < WORD && Effect(w, step).k == k && Answer(w, step) == Code(code)
    ensures step.DelayedSend? ==>
      var (k, code) := KernelSpec.DelayedSend(w.k, step.pid, step.ptr, step.delay);
      step.pid < WORD && step.delay < WORD && Effect(w, step).k == k && Answer(w, step) == Code(code)
    ensures step.Write? ==>
      var k := w.k.(alloc := AllocSpec.Write(w.k.alloc, step.ptr, step.block));
      Effect(w, step).k == k && Answer(w, step) == Nothing
  {
    hide KernelSpec.Request, KernelSpec.Release, KernelSpec.Receive, KernelSpec.Send, KernelSpec.DelayedSend;
  }

  // From any state, the handlers together perform the run of the model and answer
  // every call as the model does.
  method RunAll(x: Executive, steps: seq<Step>, ghost w: World) returns (answers: seq<Outcome>)
    requires x.Valid() && x.View() == w.k && Inv(w) && Legal(w, steps)
    modifies x, x.sched, x.sched.readyQueue, x.sched.memBlockedQueue, x.sched.msgBlockedQueue, x.sched.nodes
    modifies x.memory, x.memory.ram, x.memory.nodes, x.mailbox, x.delayedMailbox
    ensures x.Valid() && x.View() == Run(w, steps).k && Inv(Run(w, steps))
    ensures answers == Answers(w, steps)
    decreases |steps|
  {
    hide Inv, Effect, Answer, Enabled, Executive.Valid, Executive.View;
    answers := [];
    if steps != [] {
      CoreHolds(w);
      var first := Perform(x, steps[0], w);
      InvStep(w, steps[0]);
      var rest := RunAll(x, steps[1..], Do(w, steps[0]));
      answers := [first] + rest;
    }
  }

  // Boot, then any legal run: the kernel ends in the model's state, which satisfies
  // every invariant, and every call was answered as in the model.
  method BootAndRun(table: seq<Pib>, base: Addr, cap: nat, steps: seq<Step>)
    returns (x: Executive, answers: seq<Outcome>)
    requires GoodTable(table) && base > 0 && cap > 0 && Legal(BootWorld(table, base, cap), steps)
    ensures x.Valid() && x.View() == Run(BootWorld(table, base, cap), steps).k
    ensures answers == Answers(BootWorld(table, base, cap), steps)
    ensures Inv(Run(BootWorld(table, base, cap), steps))
  {
    hide Inv, Legal, Run, Executive.Valid, Executive.View, BootKernel;
    BootInv(table, base, cap);
    x := new Executive(table, base, cap);
    answers := RunAll(x, steps, BootWorld(table, base, cap));
  }
}
