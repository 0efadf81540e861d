// What main() leaves behind, in terms of the rows of the process table.
module BootLaws {
  import opened Rtx
  import opened SchedSpec
  import opened Boot
  import opened Outcomes

  // The pids of the rows of level l, in the order of the table.
  function RowsAt(table: seq<Pib>, l: nat): seq<Pid> {
    if table == [] then [] else
      var row := table[|table| - 1];
      RowsAt(table[..|table| - 1], l) + if row.priority == l then [row.pid] else []
  }

  // Row i is the first of the most urgent rows.
  ghost predicate TopRow(table: seq<Pib>, i: nat) {
    && i < |table|
    && (forall j | 0 <= j < |table| :: table[i].priority <= table[j].priority)
    && (forall j | 0 <= j < i :: table[i].priority < table[j].priority)
  }

  lemma {:induction false} AdmittedLists(table: seq<Pib>)
    ensures forall slot: Slot ::
      Admitted(table).Q(slot) == if slot.kind == ReadyQ then RowsAt(table, slot.level) else []
  {
    if table != [] {
      AdmittedLists(table[..|table| - 1]);
    }
  }

  lemma {:induction false} NoRows(table: seq<Pib>, l: nat)
    requires forall i | 0 <= i < |table| :: table[i].priority != l
    ensures RowsAt(table, l) == []
  {
    if table != [] {
      NoRows(table[..|table| - 1], l);
    }
  }

  lemma {:induction false} HeadRow(table: seq<Pib>, i: nat)
    requires i < |table| && forall j | 0 <= j < i :: table[j].priority != table[i].priority
    ensures var q := RowsAt(table, table[i].priority); q != [] && q[0] == table[i].pid
  {
    var front := table[..|table| - 1];
    if i < |front| {
      assert front[i] == table[i];
      HeadRow(front, i);
    } else {
      NoRows(front, table[i].priority);
    }
  }

  lemma {:induction false} SomeTopRow(table: seq<Pib>)
    requires table != []
    ensures exists i: nat :: TopRow(table, i)
  {
    var front, n := table[..|table| - 1], |table| - 1;
    assert table == front + [table[n]];
    if front == [] {
      assert TopRow(table, 0);
    } else {
      SomeTopRow(front);
      var i: nat :| TopRow(front, i);
      assert TopRow(table, if table[n].priority < front[i].priority then n else i);
    }
  }

  // Row i runs. All others stand in the ready list of their level in the order of the
  // table, and nobody sleeps.
  ghost predicate Starts(s: Sched, table: seq<Pib>, i: nat)
    requires i < |table|
  {
    && s.running == Some(table[i].pid)
    && (forall slot: Slot | slot.kind != ReadyQ :: s.Q(slot) == [])
    && (forall l: nat :: s.Q(Slot(ReadyQ, l)) ==
          if l == table[i].priority && RowsAt(table, l) != [] then RowsAt(table, l)[1..] else RowsAt(table, l))
    && (forall j: nat | j < |table| :: table[j].pid in s.procs
          && s.procs[table[j].pid] == Proc(if j == i then Ready else New, table[j].priority))
    && (forall p | p in s.procs :: p == MAIN_PID || exists j :: 0 <= j < |table| && table[j].pid == p)
  }

  // main() ends with the first of the most urgent rows running.
  lemma StartLaw(table: seq<Pib>)
    requires GoodTable(table)
    ensures exists i: nat :: TopRow(table, i)
    ensures forall i: nat | TopRow(table, i) :: Starts(Started(table), table, i)
  {
    SomeTopRow(table);
    forall i: nat | TopRow(table, i) ensures Starts(Started(table), table, i) {
      TopRowStarts(table, i);
    }
  }

  lemma TopRowStarts(table: seq<Pib>, i: nat)
    requires GoodTable(table) && TopRow(table, i)
    ensures Starts(Started(table), table, i)
  {
    hide Queued, FirstFrom, RowsAt, Admitted;
    AdmittedShape(table, |table|);
    assert table[..|table|] == table;
    AdmittedLists(table);
    var m := Admitted(table).(running := Some(MAIN_PID));
    var b := table[i].priority;
    assert table[0].priority == NULL_PRIORITY;
    forall l: nat | l < b ensures m.Q(Slot(ReadyQ, l)) == [] {
      NoRows(table, l);
      assert m.Q(Slot(ReadyQ, l)) == Admitted(table).Q(Slot(ReadyQ, l));
    }
    HeadRow(table, i);
    assert forall slot :: m.Q(slot) == Admitted(table).Q(slot);
    assert m.Q(Slot(ReadyQ, b)) == RowsAt(table, b) && table[i].priority <= table[0].priority;
    assert First(m, ReadyQ) == b;
    DispatchLaw(m);
  }

  // The booted kernel: adjacent zeroed blocks, all free in address order, no messages.
  lemma BootLaw(table: seq<Pib>, base: Addr, cap: nat)
    requires GoodTable(table) && base > 0
    ensures var k := BootWorld(table, base, cap).k;
      && (forall i: nat | TopRow(table, i) :: Starts(k.sched, table, i))
      && k.mailbox == [] && k.delayed == [] && k.ticks == 0 && k.cap == cap
      && k.alloc.used == [] && |k.alloc.free| == cap
      && (forall i: nat | i < cap ::
            && k.alloc.free[i] == base + i * MEM_BLOCK_SIZE
            && k.alloc.free[i] in k.alloc.owner && k.alloc.owner[k.alloc.free[i]] == (if i == 0 then 0 else -1)
            && forall n | 0 <= n < MEM_BLOCK_SIZE :: k.alloc.Mem(k.alloc.free[i])[n] == 0)
  {
    hide Started;
    StartLaw(table);
  }
}
