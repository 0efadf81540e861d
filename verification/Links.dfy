// The pointers that represent the queues: what the head of each list and the next
// field of each waiting process must be, and how the list operations change them.
module Links {
  import opened Rtx
  import opened Seqs
  import opened SchedSpec

  predicate Waiting(s: Sched, p: Pid) {
    p in s.procs && p in s.Q(Home(s, p))
  }

  function HeadOf(s: Sched, slot: Slot): Option<Pid> {
    if s.Q(slot) == [] then None else Some(s.Q(slot)[0])
  }

  // The process behind p in its list.
  function NextIn(s: Sched, p: Pid): Option<Pid>
    requires Waiting(s, p)
  {
    var q := s.Q(Home(s, p));
    var i := IndexOf(q, p);
    if i + 1 < |q| then Some(q[i + 1]) else None
  }

  predicate IsLast(q: seq<Pid>, p: Pid) {
    q != [] && q[|q| - 1] == p
  }

  // All lists hold distinct processes whose home they are, at levels 0 to 4.
  ghost predicate Listed(s: Sched) {
    forall slot :: GoodList(s, {}, slot) && (slot.level >= LEVELS ==> s.Q(slot) == [])
  }

  // Position i of a list: who waits there and who is behind.
  lemma AtIndex(s: Sched, slot: Slot, i: nat)
    requires Listed(s) && i < |s.Q(slot)|
    ensures var q := s.Q(slot);
      && Waiting(s, q[i]) && Home(s, q[i]) == slot && slot.level < LEVELS
      && NextIn(s, q[i]) == (if i + 1 < |q| then Some(q[i + 1]) else None)
  {
    assert GoodList(s, {}, slot);
    assert s.Q(slot)[i] in s.Q(slot);
  }

  lemma EnqueueLinks(s: Sched, p: Pid)
    requires Listed(s) && p in s.procs && s.procs[p].priority < LEVELS && !Waiting(s, p)
    ensures var t := Enqueue(s, KindOf(s.procs[p].state), p); var q := s.Q(Home(s, p));
      && Listed(t) && t.procs == s.procs && t.running == s.running
      && (forall slot :: HeadOf(t, slot) == if slot == Home(s, p) && q == [] then Some(p) else HeadOf(s, slot))
      && (forall x :: Waiting(t, x) <==> x == p || Waiting(s, x))
      && (forall x | Waiting(t, x) :: NextIn(t, x) ==
            if x == p then None else if IsLast(q, x) then Some(p) else NextIn(s, x))
  {
    var home := Home(s, p);
    var q := s.Q(home);
    var t := Enqueue(s, KindOf(s.procs[p].state), p);
    forall slot
      ensures GoodList(t, {}, slot) && (slot.level >= LEVELS ==> t.Q(slot) == [])
      ensures slot != home ==> p !in s.Q(slot)
    {
      assert GoodList(s, {}, slot);
    }
    assert Listed(t);
    forall x ensures Waiting(t, x) <==> x == p || Waiting(s, x) {
      if x == p {
        assert t.Q(home)[|q|] == p;
      }
    }
    forall x | Waiting(t, x)
      ensures NextIn(t, x) == if x == p then None else if IsLast(q, x) then Some(p) else NextIn(s, x)
    {
      if Home(s, x) == home {
        var i := IndexOf(t.Q(home), x);
        AtIndex(t, home, i);
        if i < |q| {
          AtIndex(s, home, i);
          assert GoodList(s, {}, home);
        }
      } else {
        assert t.Q(Home(s, x)) == s.Q(Home(s, x));
        assert GoodList(s, {}, home);
      }
    }
  }

  // The entry before p in its list, if any, is the only one that leads to p.
  lemma OnePredecessor(s: Sched, p: Pid, x: Pid)
    requires Listed(s) && Waiting(s, p) && Waiting(s, x)
    ensures NextIn(s, x) == Some(p) <==>
      Home(s, x) == Home(s, p) && IndexOf(s.Q(Home(s, p)), x) + 1 == IndexOf(s.Q(Home(s, p)), p)
  {
    var q := s.Q(Home(s, x));
    var i := IndexOf(q, x);
    AtIndex(s, Home(s, x), i);
    if i + 1 < |q| {
      AtIndex(s, Home(s, x), i + 1);
      assert GoodList(s, {}, Home(s, x));
    }
  }

  lemma RemoveLists(s: Sched, p: Pid)
    requires Listed(s) && p in s.procs && s.running != Some(p)
    ensures var t := Remove(s, p);
      && Listed(t) && t.procs == s.procs && t.running == s.running
      && (forall x :: Waiting(t, x) <==> x != p && Waiting(s, x))
      && (forall slot | slot != Home(s, p) :: t.Q(slot) == s.Q(slot))
      && t.Q(Home(s, p)) == Without(s.Q(Home(s, p)), p)
  {
    var t := Remove(s, p);
    forall slot
      ensures GoodList(t, {}, slot) && (slot.level >= LEVELS ==> t.Q(slot) == [])
      ensures forall x :: x in t.Q(slot) <==> x != p && x in s.Q(slot)
    {
      assert GoodList(s, {}, slot);
      WithoutMembers(s.Q(slot), p);
    }
  }

  // Taking p out of its list: its predecessor, or the head, now leads to its successor.
  lemma RemoveNext(s: Sched, p: Pid, x: Pid)
    requires Listed(s) && Waiting(s, p) && s.running != Some(p) && Waiting(s, x) && x != p
    ensures Waiting(Remove(s, p), x)
    ensures NextIn(Remove(s, p), x) == if NextIn(s, x) == Some(p) then NextIn(s, p) else NextIn(s, x)
  {
    var home, t := Home(s, p), Remove(s, p);
    RemoveLists(s, p);
    if Home(s, x) == home {
      var q := s.Q(home);
      var k, j := IndexOf(q, p), IndexOf(q, x);
      assert GoodList(s, {}, home);
      AtIndex(s, home, k);
      AtIndex(s, home, j);
      AtIndex(t, home, if j < k then j else j - 1);
    } else {
      OnePredecessor(s, p, x);
    }
  }

  lemma RemoveLinks(s: Sched, p: Pid)
    requires Listed(s) && Waiting(s, p) && s.running != Some(p)
    ensures var t := Remove(s, p);
      && Listed(t) && t.procs == s.procs && t.running == s.running
      && (forall slot :: HeadOf(t, slot) ==
            if slot == Home(s, p) && HeadOf(s, slot) == Some(p) then NextIn(s, p) else HeadOf(s, slot))
      && (forall x :: Waiting(t, x) <==> x != p && Waiting(s, x))
      && (forall x | Waiting(t, x) :: NextIn(t, x) == if NextIn(s, x) == Some(p) then NextIn(s, p) else NextIn(s, x))
  {
    hide Listed, NextIn;
    var t := Remove(s, p);
    RemoveLists(s, p);
    forall x | Waiting(t, x)
      ensures NextIn(t, x) == if NextIn(s, x) == Some(p) then NextIn(s, p) else NextIn(s, x)
    {
      RemoveNext(s, p, x);
    }
    AtIndex(s, Home(s, p), IndexOf(s.Q(Home(s, p)), p));
  }

  // Removing a process that is in no list changes nothing.
  lemma RemoveNothing(s: Sched, p: Pid)
    requires Listed(s) && p in s.procs && !Waiting(s, p) && s.running != Some(p)
    ensures var t := Remove(s, p);
      && Listed(t) && t.procs == s.procs && t.running == s.running
      && (forall slot :: HeadOf(t, slot) == HeadOf(s, slot))
      && (forall x :: Waiting(t, x) <==> Waiting(s, x))
      && (forall x | Waiting(t, x) :: NextIn(t, x) == NextIn(s, x))
  {
    RemoveLists(s, p);
    assert forall slot :: Remove(s, p).Q(slot) == s.Q(slot);
  }

  lemma PopLists(s: Sched, kind: Kind)
    requires Listed(s) && First(s, kind) < LEVELS
    ensures var (t, p) := Pop(s, kind); var slot := Slot(kind, First(s, kind));
      && Listed(t) && t.procs == s.procs && t.running == s.running
      && p in s.procs && Waiting(s, p) && Home(s, p) == slot && s.Q(slot) == [p] + t.Q(slot)
      && (forall other | other != slot :: t.Q(other) == s.Q(other))
      && (forall x :: Waiting(t, x) <==> x != p && Waiting(s, x))
  {
    hide FirstFrom;
    var slot := Slot(kind, First(s, kind));
    var (t, p) := Pop(s, kind);
    assert s.Q(slot) == [p] + t.Q(slot);
    forall other
      ensures GoodList(t, {}, other) && (other.level >= LEVELS ==> t.Q(other) == [])
      ensures forall x :: x in t.Q(other) <==> x in s.Q(other) && (other == slot ==> x != p)
      ensures other != slot ==> p !in s.Q(other)
    {
      assert GoodList(s, {}, other) && GoodList(s, {}, slot) && p in s.Q(slot);
    }
  }

  lemma PopNext(s: Sched, kind: Kind, x: Pid)
    requires Listed(s) && First(s, kind) < LEVELS && Waiting(Pop(s, kind).0, x)
    ensures Waiting(s, x) && NextIn(Pop(s, kind).0, x) == NextIn(s, x)
  {
    hide Listed, FirstFrom, Pop;
    PopLists(s, kind);
    var slot := Slot(kind, First(s, kind));
    var t := Pop(s, kind).0;
    if Home(s, x) == slot {
      var i := IndexOf(t.Q(slot), x);
      AtIndex(t, slot, i);
      AtIndex(s, slot, i + 1);
    }
  }

  // The head of the best list leaves it.
  lemma PopLinks(s: Sched, kind: Kind)
    requires Listed(s) && First(s, kind) < LEVELS
    ensures var (t, p) := Pop(s, kind); var slot := Slot(kind, First(s, kind));
      && Listed(t) && t.procs == s.procs && t.running == s.running
      && p in s.procs && Waiting(s, p) && Home(s, p) == slot && HeadOf(s, slot) == Some(p)
      && (forall other :: HeadOf(t, other) == if other == slot then NextIn(s, p) else HeadOf(s, other))
      && (forall x :: Waiting(t, x) <==> x != p && Waiting(s, x))
      && (forall x | Waiting(t, x) :: NextIn(t, x) == NextIn(s, x))
  {
    hide Listed, NextIn, FirstFrom, Pop;
    PopLists(s, kind);
    AtIndex(s, Slot(kind, First(s, kind)), 0);
    forall x | Waiting(Pop(s, kind).0, x)
      ensures NextIn(Pop(s, kind).0, x) == NextIn(s, x)
    {
      PopNext(s, kind, x);
    }
  }

  // A process in no list may change its state and level, or disappear.
  lemma ChangeLinks(s: Sched, p: Pid, proc: Proc)
    requires Listed(s) && p in s.procs && forall slot :: p !in s.Q(slot)
    ensures var t := s.(procs := s.procs[p := proc]);
      && Listed(t)
      && (forall slot :: t.Q(slot) == s.Q(slot) && HeadOf(t, slot) == HeadOf(s, slot))
      && (forall x :: Waiting(t, x) <==> x != p && Waiting(s, x))
      && (forall x | Waiting(t, x) :: NextIn(t, x) == NextIn(s, x))
  {
    var t := s.(procs := s.procs[p := proc]);
    forall slot ensures t.Q(slot) == s.Q(slot) && GoodList(t, {}, slot) {
      assert GoodList(s, {}, slot);
    }
    assert Listed(t);
  }

  // Who runs does not matter to the lists.
  lemma RunningLinks(s: Sched, r: Option<Pid>)
    requires Listed(s)
    ensures var t := s.(running := r);
      && Listed(t) && (forall slot :: HeadOf(t, slot) == HeadOf(s, slot))
      && (forall x :: Waiting(t, x) <==> Waiting(s, x)) && (forall x | Waiting(t, x) :: NextIn(t, x) == NextIn(s, x))
  {
    var t := s.(running := r);
    forall slot ensures t.Q(slot) == s.Q(slot) && GoodList(t, {}, slot) {
      assert GoodList(s, {}, slot);
    }
  }

  lemma NotWaiting(s: Sched, p: Pid)
    requires Listed(s) && !Waiting(s, p)
    ensures forall slot :: p !in s.Q(slot)
  {
    forall slot ensures p !in s.Q(slot) {
      assert GoodList(s, {}, slot);
    }
  }
}
