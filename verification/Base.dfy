// Constants and small value types shared by every part of the kernel model.
module Rtx {
  const MEM_BLOCK_SIZE: nat := 128
  const WORD: nat := 0x1_0000_0000
  const LEVELS: nat := 5

  const NULL_PID: nat := 0
  // main_process stores -1 in its unsigned pid and priority fields.
  const MAIN_PID: nat := 0xFFFF_FFFF
  const MAIN_PRIORITY: nat := 0xFFFF_FFFF
  const NULL_PRIORITY: nat := 4

  // A process id, and the address of a memory block (0 is the C null pointer).
  type Pid = nat
  type Addr = nat
  const NULL: Addr := 0

  type byte = b: int | 0 <= b < 256

  datatype Option<+T> = None | Some(value: T)
}

// Facts about sequences that the queue, mailbox and history proofs share.
module Seqs {
  ghost predicate NoDup<T>(q: seq<T>) {
    forall i, j :: 0 <= i < j < |q| ==> q[i] != q[j]
  }

  function IndexOf<T(==)>(q: seq<T>, x: T): (i: nat)
    requires x in q
    ensures i < |q| && q[i] == x && x !in q[..i]
  {
    if q[0] == x then 0 else
      var i := IndexOf(q[1..], x) + 1;
      assert q[..i] == [q[0]] + q[1..][..i - 1];
      i
  }

  // The sequence with the entry at position i taken out and the rest moved up.
  function Drop<T>(q: seq<T>, i: nat): seq<T>
    requires i < |q|
  {
    q[..i] + q[i + 1..]
  }

  function Without<T(==)>(q: seq<T>, x: T): seq<T> {
    if x in q then Drop(q, IndexOf(q, x)) else q
  }

  lemma WithoutMembers<T>(q: seq<T>, x: T)
    requires NoDup(q)
    ensures NoDup(Without(q, x))
    ensures forall y :: y in Without(q, x) <==> y in q && y != x
  {
    if x in q {
      var i := IndexOf(q, x);
      forall y | y in q && y != x
        ensures y in Without(q, x)
      {
        var j :| 0 <= j < |q| && q[j] == y;
        assert y == Without(q, x)[if j < i then j else j - 1];
      }
    }
  }

  lemma IndexUnique<T>(q: seq<T>, i: nat)
    requires NoDup(q) && i < |q|
    ensures Without(q, q[i]) == Drop(q, i)
  {
  }

  function Not<T>(p: T -> bool): T -> bool {
    x => !p(x)
  }

  function Both<T>(p: T -> bool, p': T -> bool): T -> bool {
    x => p(x) && p'(x)
  }

  // The entries of q that satisfy p, in the order of q.
  function Filter<T>(q: seq<T>, p: T -> bool): seq<T> {
    if q == [] then [] else if p(q[0]) then [q[0]] + Filter(q[1..], p) else Filter(q[1..], p)
  }

  lemma FilterStep<T>(q: seq<T>, i: nat, p: T -> bool)
    requires i < |q|
    ensures Filter(q[i..], p) == if p(q[i]) then [q[i]] + Filter(q[i + 1..], p) else Filter(q[i + 1..], p)
  {
    assert q[i..][1..] == q[i + 1..];
  }

  lemma {:induction false} FilterConcat<T>(a: seq<T>, b: seq<T>, p: T -> bool)
    ensures Filter(a + b, p) == Filter(a, p) + Filter(b, p)
  {
    if a == [] {
      assert a + b == b;
    } else {
      FilterConcat(a[1..], b, p);
      assert (a + b)[1..] == a[1..] + b;
      if p(a[0]) {
        assert [a[0]] + (Filter(a[1..], p) + Filter(b, p)) == ([a[0]] + Filter(a[1..], p)) + Filter(b, p);
      }
    }
  }

  // Taking out the first selected entry, or an entry that is not selected.
  lemma FilterDrop<T>(q: seq<T>, i: nat, p: T -> bool)
    requires i < |q| && (p(q[i]) ==> forall j | 0 <= j < i :: !p(q[j]))
    ensures Filter(q, p) == if p(q[i]) then [q[i]] + Filter(Drop(q, i), p) else Filter(Drop(q, i), p)
  {
    assert q == q[..i] + q[i..];
    FilterConcat(q[..i], q[i..], p);
    FilterConcat(q[..i], q[i + 1..], p);
    FilterStep(q, i, p);
    if p(q[i]) {
      FilterNone(q[..i], p);
    }
  }

  lemma {:induction false} FilterMembers<T>(q: seq<T>, p: T -> bool)
    ensures forall x :: x in Filter(q, p) <==> x in q && p(x)
    ensures |Filter(q, p)| <= |q|
  {
    if q != [] {
      FilterMembers(q[1..], p);
      forall x
        ensures x in q <==> x == q[0] || x in q[1..]
      {
        assert q == [q[0]] + q[1..];
      }
    }
  }

  // Filters that agree on the entries of q select the same entries.
  lemma {:induction false} FilterAgree<T>(q: seq<T>, p: T -> bool, p': T -> bool)
    requires forall x | x in q :: p(x) == p'(x)
    ensures Filter(q, p) == Filter(q, p')
  {
    if q != [] {
      FilterAgree(q[1..], p, p');
    }
  }

  lemma {:induction false} FilterFilter<T>(q: seq<T>, p: T -> bool, p': T -> bool)
    ensures Filter(Filter(q, p), p') == Filter(q, Both(p, p'))
  {
    if q != [] {
      FilterFilter(q[1..], p, p');
      if p(q[0]) {
        assert Filter(q, p)[1..] == Filter(q[1..], p);
      }
    }
  }

  lemma {:induction false} FilterNone<T>(q: seq<T>, p: T -> bool)
    requires forall x | x in q :: !p(x)
    ensures Filter(q, p) == []
  {
    if q != [] {
      FilterNone(q[1..], p);
    }
  }

  // The first position whose entry satisfies p, or the length of q.
  function FirstIndex<T>(q: seq<T>, p: T -> bool): (i: nat)
    ensures i <= |q| && (i < |q| ==> p(q[i]))
    ensures forall j | 0 <= j < i :: !p(q[j])
  {
    if q == [] || p(q[0]) then 0 else FirstIndex(q[1..], p) + 1
  }

  // A duplicate-free sequence over a finite set is no longer than the set.
  lemma {:induction false} NoDupBound<T>(q: seq<T>, s: set<T>)
    requires NoDup(q) && forall x :: x in q ==> x in s
    ensures |q| <= |s|
  {
    if q != [] {
      var n := |q| - 1;
      assert q == q[..n] + [q[n]];
      forall x | x in q[..n]
        ensures x in s - {q[n]}
      {
      }
      NoDupBound(q[..n], s - {q[n]});
    }
  }

  function Elems<T>(q: seq<T>): set<T> {
    set x | x in q
  }

  lemma {:induction false} ElemsSize<T>(q: seq<T>)
    requires NoDup(q)
    ensures |Elems(q)| == |q|
  {
    if q != [] {
      ElemsSize(q[1..]);
      assert q == [q[0]] + q[1..];
      assert q[0] !in Elems(q[1..]);
      assert Elems(q) == {q[0]} + Elems(q[1..]);
    }
  }

  lemma {:induction false} NoDupMultiset<T>(q: seq<T>)
    requires NoDup(q)
    ensures forall x :: multiset(q)[x] <= 1
  {
    if q != [] {
      NoDupMultiset(q[1..]);
      assert q == [q[0]] + q[1..];
      assert q[0] !in multiset(q[1..]);
    }
  }

  lemma {:induction false} MultisetNoDup<T>(q: seq<T>)
    requires forall x :: multiset(q)[x] <= 1
    ensures NoDup(q)
  {
    if q != [] {
      assert q == [q[0]] + q[1..];
      assert forall x :: multiset(q)[x] == multiset([q[0]])[x] + multiset(q[1..])[x];
      MultisetNoDup(q[1..]);
      assert q[0] !in q[1..] by {
        assert multiset(q[1..])[q[0]] == 0;
      }
    }
  }

  lemma NoDupConcat<T>(a: seq<T>, b: seq<T>)
    requires NoDup(a) && NoDup(b) && forall x | x in a :: x !in b
    ensures NoDup(a + b)
  {
    forall i, j | 0 <= i < j < |a + b|
      ensures (a + b)[i] != (a + b)[j]
    {
      if i < |a| <= j {
        assert (a + b)[i] in a && (a + b)[j] in b;
      }
    }
  }
}
