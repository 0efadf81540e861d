// Who owns a free block. release_memory_handler marks it as nobody's, but init_memory
// leaves the first block with the zero that malloc wrote.
module Owners {
  import opened Rtx
  import opened Envelope
  import opened SchedSpec
  import opened AllocSpec
  import opened KernelSpec
  import opened Boot
  import opened Runs
  import opened Reachable

  // Every free block is nobody's.
  ghost predicate Unowned(a: Alloc) {
    forall p | p in a.free :: a.Owner(p) == NO_OWNER
  }

  // No block was ever handed out: the first one still carries the zero.
  ghost predicate Untouched(a: Alloc, base: Addr) {
    && a.free != [] && a.free[0] == base && a.Owner(base) == 0 && a.used == []
    && forall p | p in a.free && p != base :: a.Owner(p) == NO_OWNER
  }

  // A free block was free before with the same owner, or has just been released.
  lemma FreeAfter(w: World, step: Step, p: Addr)
    requires Core(w) && Enabled(w, step) && p in Effect(w, step).k.alloc.free
    ensures var a, a' := w.k.alloc, Effect(w, step).k.alloc;
      || (p in a.free && a'.Owner(p) == a.Owner(p))
      || (step.Release? && p == step.ptr && GiveCode(a, p, w.k.Current()) == 0 && a'.Owner(p) == NO_OWNER)
  {
    hide Steady, PcOk, Rx, Stamped, Addressed, WakeMany, BlockRunning, UnblockPid, UnblockType, SetPriority, Switch;
    match step
    case Send(pid, ptr) => NotFree(w, ptr);
    case DelayedSend(pid, ptr, _) => NotFree(w, ptr);
    case _ =>
  }

  lemma NotFree(w: World, ptr: Addr)
    requires Core(w)
    ensures ptr in w.h.place && w.h.place[ptr].Held? ==> ptr !in w.k.alloc.free
  {
  }

  lemma UnownedStep(w: World, step: Step)
    requires Core(w) && Enabled(w, step) && Unowned(w.k.alloc)
    ensures Unowned(Do(w, step).k.alloc)
  {
    hide Core, Effect;
    forall p | p in Effect(w, step).k.alloc.free
      ensures Effect(w, step).k.alloc.Owner(p) == NO_OWNER
    {
      FreeAfter(w, step, p);
    }
  }

  // The first request takes the first block; until then nothing can be sent, written
  // or released.
  lemma UntouchedStep(w: World, step: Step, base: Addr)
    requires Core(w) && Enabled(w, step) && Untouched(w.k.alloc, base)
    ensures if step.Request? then Unowned(Do(w, step).k.alloc) else Untouched(Do(w, step).k.alloc, base)
  {
    hide Core, Effect;
    if step.Request? {
      FirstRequest(w, base);
    } else {
      NothingHeld(w, base);
      SameAlloc(w, step);
    }
  }

  lemma FirstRequest(w: World, base: Addr)
    requires Core(w) && Enabled(w, Step.Request) && Untouched(w.k.alloc, base)
    ensures Unowned(Effect(w, Step.Request).k.alloc)
  {
    hide Steady, PcOk, BlockRunning;
    var a := w.k.alloc;
    forall p | p in a.free[1..] ensures p in a.free && p != base {
      var i :| 0 <= i < |a.free[1..]| && a.free[1..][i] == p;
      assert a.free[i + 1] == p;
    }
  }

  lemma NothingHeld(w: World, base: Addr)
    requires Core(w) && Untouched(w.k.alloc, base)
    ensures forall p | p in w.h.place :: w.h.place[p].Free?
  {
    forall p | p in w.h.place ensures w.h.place[p].Free? {
      assert p !in w.k.alloc.used;
    }
  }

  lemma SameAlloc(w: World, step: Step)
    requires Enabled(w, step) && !step.Request? && w.k.alloc.used == []
    requires forall p | p in w.h.place :: w.h.place[p].Free?
    ensures Effect(w, step).k.alloc == w.k.alloc
  {
    hide Rx, Stamped, Addressed, WakeMany, BlockRunning, UnblockPid, UnblockType, SetPriority, Switch;
  }

  lemma {:induction false} UnownedRun(w: World, steps: seq<Step>)
    requires Inv(w) && Legal(w, steps) && Unowned(w.k.alloc)
    ensures Unowned(Run(w, steps).k.alloc)
    decreases |steps|
  {
    hide Inv, Do, Enabled, Unowned;
    if steps != [] {
      CoreHolds(w);
      UnownedStep(w, steps[0]);
      InvStep(w, steps[0]);
      UnownedRun(Do(w, steps[0]), steps[1..]);
    }
  }

  predicate Requests(steps: seq<Step>) {
    exists i :: 0 <= i < |steps| && steps[i].Request?
  }

  lemma {:induction false} UntouchedRun(w: World, steps: seq<Step>, base: Addr)
    requires Inv(w) && Legal(w, steps) && Untouched(w.k.alloc, base)
    ensures if Requests(steps) then Unowned(Run(w, steps).k.alloc) else Untouched(Run(w, steps).k.alloc, base)
    decreases |steps|
  {
    hide Inv, Do, Enabled, Unowned, Untouched;
    if steps != [] {
      CoreHolds(w);
      UntouchedStep(w, steps[0], base);
      InvStep(w, steps[0]);
      assert Requests(steps) <==> steps[0].Request? || Requests(steps[1..]) by {
        RequestsLater(steps);
      }
      if steps[0].Request? {
        UnownedRun(Do(w, steps[0]), steps[1..]);
      } else {
        UntouchedRun(Do(w, steps[0]), steps[1..], base);
      }
    }
  }

  lemma RequestsLater(steps: seq<Step>)
    requires steps != []
    ensures Requests(steps) <==> steps[0].Request? || Requests(steps[1..])
  {
    if i :| 0 <= i < |steps| && steps[i].Request? {
      assert i > 0 ==> steps[1..][i - 1].Request?;
    }
    if i :| 0 <= i < |steps[1..]| && steps[1..][i].Request? {
      assert steps[i + 1].Request?;
    }
  }

  lemma BootUntouched(table: seq<Pib>, base: Addr, cap: nat)
    requires GoodTable(table) && base > 0 && cap > 0
    ensures Untouched(BootWorld(table, base, cap).k.alloc, base)
  {
    hide Started;
    assert Blocks(base, cap)[0] == base;
  }

  // After any legal run from boot: all free blocks are nobody's if and only if some
  // process has called request_memory_block. Before that the first block, which is
  // free, still has owner 0.
  lemma OwnerlessIff(table: seq<Pib>, base: Addr, cap: nat, steps: seq<Step>)
    requires GoodTable(table) && base > 0 && cap > 0 && Legal(BootWorld(table, base, cap), steps)
    ensures var a := Run(BootWorld(table, base, cap), steps).k.alloc;
      && ((forall p | p in a.free :: a.Owner(p) == NO_OWNER) <==> exists i :: 0 <= i < |steps| && steps[i].Request?)
      && ((forall i | 0 <= i < |steps| :: !steps[i].Request?) ==> base in a.free && a.Owner(base) == 0)
      && (forall p | p in a.free && p != base :: a.Owner(p) == NO_OWNER)
  {
    hide Inv, BootWorld, Run, Legal;
    BootInv(table, base, cap);
    BootUntouched(table, base, cap);
    UntouchedRun(BootWorld(table, base, cap), steps, base);
  }
}
