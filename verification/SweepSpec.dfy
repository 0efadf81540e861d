// What one timer sweep of the delayed mailbox does, stated on sequences.
module SweepSpec {
  import opened Seqs

  datatype Swept<T> = Swept(moved: seq<T>, kept: seq<T>)

  // With a free slot at the end every due entry moves. When all cap slots are
  // taken the index is not stepped back after the first move, so the entry right
  // after the first due one is passed over.
  function Sweep<T>(q: seq<T>, due: T -> bool, cap: nat): Swept<T> {
    var d := FirstIndex(q, due);
    if |q| < cap || |q| <= d + 1 then
      Swept(Filter(q, due), Filter(q, Not(due)))
    else
      Swept([q[d]] + Filter(q[d + 2..], due), q[..d] + [q[d + 1]] + Filter(q[d + 2..], Not(due)))
  }

  // The guard under which a due entry is left behind.
  predicate Skips<T>(q: seq<T>, due: T -> bool, cap: nat) {
    var d := FirstIndex(q, due);
    |q| >= cap && d + 1 < |q| && due(q[d + 1])
  }

  lemma {:induction false} FilterPrefix<T>(q: seq<T>, d: nat, due: T -> bool)
    requires d <= |q| && forall j | 0 <= j < d :: !due(q[j])
    ensures Filter(q, due) == Filter(q[d..], due)
    ensures Filter(q, Not(due)) == q[..d] + Filter(q[d..], Not(due))
  {
    if d > 0 {
      FilterPrefix(q[1..], d - 1, due);
      assert q[1..][d - 1..] == q[d..];
      assert q[..d] == [q[0]] + q[1..][..d - 1];
    }
  }

  // Without the passed-over entry being due, the sweep is exact.
  lemma SweepExact<T>(q: seq<T>, due: T -> bool, cap: nat)
    requires !Skips(q, due, cap)
    ensures Sweep(q, due, cap) == Swept(Filter(q, due), Filter(q, Not(due)))
  {
    hide Filter;
    var d := FirstIndex(q, due);
    if !(|q| < cap || |q| <= d + 1) {
      FilterPrefix(q, d, due);
      FilterStep(q, d, due);
      FilterStep(q, d, Not(due));
      FilterStep(q, d + 1, due);
      FilterStep(q, d + 1, Not(due));
      assert q[..d] + ([q[d + 1]] + Filter(q[d + 2..], Not(due))) == q[..d] + [q[d + 1]] + Filter(q[d + 2..], Not(due));
    }
  }

  // The sweep moves exactly the due entries, and keeps exactly the others in
  // order, if and only if it does not pass over a due entry.
  lemma SweepExactIff<T>(q: seq<T>, due: T -> bool, cap: nat)
    ensures Sweep(q, due, cap) == Swept(Filter(q, due), Filter(q, Not(due))) <==> !Skips(q, due, cap)
  {
    hide Filter;
    if Skips(q, due, cap) {
      var d := FirstIndex(q, due);
      FilterMembers(q, Not(due));
      assert Sweep(q, due, cap).kept[d] == q[d + 1] && !Not(due)(q[d + 1]);
    } else {
      SweepExact(q, due, cap);
    }
  }

  // Two due entries in a full array of two: only the first moves.
  lemma SweepTwo<T>(a: T, b: T, due: T -> bool)
    requires due(a) && due(b)
    ensures Sweep([a, b], due, 2) == Swept([a], [b])
  {
    assert FirstIndex([a, b], due) == 0;
    assert [a, b][2..] == [];
  }

  // The only due entry that can stay is the one right after the first due entry.
  lemma SweepLeavesOne<T>(q: seq<T>, due: T -> bool, cap: nat, x: T)
    requires due(x) && x in Sweep(q, due, cap).kept
    ensures Skips(q, due, cap) && x == q[FirstIndex(q, due) + 1]
  {
    hide Filter;
    var d := FirstIndex(q, due);
    FilterMembers(q, Not(due));
    if d + 1 < |q| {
      FilterMembers(q[d + 2..], Not(due));
    }
  }

  // Nothing that is not due moves; a due entry that stays moves up one slot.
  lemma SweepEntry<T>(q: seq<T>, due: T -> bool, cap: nat, i: nat)
    requires i < |q|
    ensures !due(q[i]) ==> q[i] !in Sweep(q, due, cap).moved && q[i] in Sweep(q, due, cap).kept
    ensures due(q[i]) ==>
      || q[i] in Sweep(q, due, cap).moved
      || (0 < i && i - 1 < |Sweep(q, due, cap).kept| && Sweep(q, due, cap).kept[i - 1] == q[i])
  {
    hide Filter;
    var d := FirstIndex(q, due);
    FilterMembers(q, due);
    FilterMembers(q, Not(due));
    if !(|q| < cap || |q| <= d + 1) {
      var rest := q[d + 2..];
      FilterMembers(rest, due);
      FilterMembers(rest, Not(due));
      if d + 2 <= i {
        assert q[i] == rest[i - d - 2];
      }
    }
  }

  lemma {:induction false} SplitMembers<T>(q: seq<T>, due: T -> bool)
    ensures multiset(Filter(q, due)) + multiset(Filter(q, Not(due))) == multiset(q)
  {
    if q != [] {
      SplitMembers(q[1..], due);
      assert q == [q[0]] + q[1..];
    }
  }

  lemma Rearranged<T>(a: seq<T>, x: T, y: T, rest: seq<T>, m: seq<T>, k: seq<T>)
    requires multiset(m) + multiset(k) == multiset(rest)
    ensures multiset([x] + m) + multiset(a + [y] + k) == multiset(a + [x] + [y] + rest)
  {
  }

  // The sweep neither loses nor copies an entry.
  lemma SweepConserves<T>(q: seq<T>, due: T -> bool, cap: nat)
    ensures multiset(Sweep(q, due, cap).moved) + multiset(Sweep(q, due, cap).kept) == multiset(q)
  {
    hide Filter;
    var d := FirstIndex(q, due);
    if |q| < cap || |q| <= d + 1 {
      SplitMembers(q, due);
    } else {
      SplitMembers(q[d + 2..], due);
      var m, k := Filter(q[d + 2..], due), Filter(q[d + 2..], Not(due));
      Rearranged(q[..d], q[d], q[d + 1], q[d + 2..], m, k);
      assert q == q[..d] + [q[d]] + [q[d + 1]] + q[d + 2..];
    }
  }
}
