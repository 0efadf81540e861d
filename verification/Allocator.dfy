// mem.c: fixed-size blocks of RAM, moved between two linked lists of block headers.
module AllocatorImpl {
  import opened Rtx
  import opened Seqs
  import opened Envelope
  import opened AllocSpec
  import opened Boot

  class MemBlock {
    const startBlock: Addr
    var next: MemBlock?
    var pid: int

    constructor (startBlock: Addr, pid: int)
      ensures this.startBlock == startBlock && this.pid == pid && next == null
    {
      this.startBlock, this.pid, this.next := startBlock, pid, null;
    }
  }

  // ---------- lists and links ----------

  function HeadOf(q: seq<Addr>): Option<Addr> {
    if q == [] then None else Some(q[0])
  }

  // The entry behind x.
  function NextIn(q: seq<Addr>, x: Addr): Option<Addr>
    requires x in q
  {
    var i := IndexOf(q, x);
    if i + 1 < |q| then Some(q[i + 1]) else None
  }

  predicate IsLast(q: seq<Addr>, x: Addr) {
    q != [] && q[|q| - 1] == x
  }

  lemma AtIndex(q: seq<Addr>, i: nat)
    requires NoDup(q) && i < |q|
    ensures q[i] in q && NextIn(q, q[i]) == (if i + 1 < |q| then Some(q[i + 1]) else None)
  {
  }

  lemma AppendLinks(q: seq<Addr>, x: Addr)
    requires NoDup(q) && x !in q
    ensures NoDup(q + [x]) && HeadOf(q + [x]) == (if q == [] then Some(x) else HeadOf(q))
    ensures forall y :: y in q + [x] <==> y == x || y in q
    ensures forall y | y in q + [x] ::
      NextIn(q + [x], y) == if y == x then None else if IsLast(q, y) then Some(x) else NextIn(q, y)
  {
    forall y | y in q + [x]
      ensures NextIn(q + [x], y) == if y == x then None else if IsLast(q, y) then Some(x) else NextIn(q, y)
    {
      var i := IndexOf(q + [x], y);
      AtIndex(q + [x], i);
      if i < |q| {
        AtIndex(q, i);
      }
    }
  }

  lemma TailLinks(q: seq<Addr>)
    requires NoDup(q) && q != []
    ensures HeadOf(q) == Some(q[0]) && q[0] in q && HeadOf(q[1..]) == NextIn(q, q[0])
    ensures NoDup(q[1..]) && forall y :: y in q[1..] <==> y in q && y != q[0]
    ensures forall y | y in q[1..] :: NextIn(q[1..], y) == NextIn(q, y)
  {
    assert q == [q[0]] + q[1..];
    AtIndex(q, 0);
    forall y | y in q[1..] ensures NextIn(q[1..], y) == NextIn(q, y) {
      var i := IndexOf(q[1..], y);
      AtIndex(q[1..], i);
      AtIndex(q, i + 1);
    }
  }

  lemma OnePredecessor(q: seq<Addr>, x: Addr, y: Addr)
    requires NoDup(q) && x in q && y in q
    ensures NextIn(q, y) == Some(x) <==> IndexOf(q, y) + 1 == IndexOf(q, x)
  {
    var i := IndexOf(q, y);
    AtIndex(q, i);
    if i + 1 < |q| {
      AtIndex(q, i + 1);
    }
  }

  lemma RemoveLinks(q: seq<Addr>, x: Addr)
    requires NoDup(q) && x in q
    ensures var t := Without(q, x);
      && NoDup(t) && (forall y :: y in t <==> y in q && y != x)
      && HeadOf(t) == (if HeadOf(q) == Some(x) then NextIn(q, x) else HeadOf(q))
      && (forall y | y in t :: NextIn(t, y) == if NextIn(q, y) == Some(x) then NextIn(q, x) else NextIn(q, y))
    ensures forall y | y in q :: NextIn(q, y) == Some(x) <==> IndexOf(q, y) + 1 == IndexOf(q, x)
  {
    var t, k := Without(q, x), IndexOf(q, x);
    WithoutMembers(q, x);
    AtIndex(q, k);
    forall y | y in q ensures NextIn(q, y) == Some(x) <==> IndexOf(q, y) + 1 == k {
      OnePredecessor(q, x, y);
    }
    forall y | y in t
      ensures NextIn(t, y) == if NextIn(q, y) == Some(x) then NextIn(q, x) else NextIn(q, y)
    {
      var j := IndexOf(q, y);
      AtIndex(q, j);
      AtIndex(t, if j < k then j else j - 1);
      OnePredecessor(q, x, y);
    }
  }

  // ---------- the allocator ----------

  // The header a link stands for.
  ghost function Ptr(headers: map<Addr, MemBlock>, link: Option<Addr>): MemBlock? {
    if link.Some? && link.value in headers then headers[link.value] else null
  }

  // Each block is at most once in at most one list.
  ghost predicate ListsOk(free: seq<Addr>, used: seq<Addr>, blocks: set<Addr>) {
    && NoDup(free) && NoDup(used)
    && (forall p | p in free :: p !in used && p in blocks) && (forall p | p in used :: p in blocks)
  }

  // The list an enqueue extends, and the allocator with that list replaced.
  function ListOf(a: Alloc, used: bool): seq<Addr> {
    if used then a.used else a.free
  }

  function WithList(a: Alloc, used: bool, q: seq<Addr>): Alloc {
    if used then a.(used := q) else a.(free := q)
  }

  // What keeps the two lists apart when one of them changes.
  lemma ListsAppend(a: Alloc, blocks: set<Addr>, used: bool, x: Addr)
    requires ListsOk(a.free, a.used, blocks) && x in blocks && !a.Knows(x)
    ensures var t := WithList(a, used, ListOf(a, used) + [x]); ListsOk(t.free, t.used, blocks)
    ensures NoDup(ListOf(a, used)) && x !in a.free && x !in a.used
    ensures forall y | IsLast(ListOf(a, used), y) :: y in ListOf(a, used) && y !in ListOf(a, !used)
  {
    AppendLinks(ListOf(a, used), x);
  }

  lemma ListsTake(a: Alloc, blocks: set<Addr>, used: bool)
    requires ListsOk(a.free, a.used, blocks) && ListOf(a, used) != []
    ensures var t := WithList(a, used, ListOf(a, used)[1..]); ListsOk(t.free, t.used, blocks)
    ensures NoDup(ListOf(a, used)) && ListOf(a, used)[0] in blocks && ListOf(a, used)[0] !in ListOf(a, !used)
  {
    TailLinks(ListOf(a, used));
  }

  lemma ListsRemove(a: Alloc, blocks: set<Addr>, used: bool, x: Addr)
    requires ListsOk(a.free, a.used, blocks) && x in ListOf(a, used)
    ensures var t := WithList(a, used, Without(ListOf(a, used), x)); ListsOk(t.free, t.used, blocks) && !t.Knows(x)
    ensures NoDup(ListOf(a, used)) && x in blocks
    ensures forall y | y in ListOf(a, used) :: y !in ListOf(a, !used)
  {
    WithoutMembers(ListOf(a, used), x);
  }

  // Blocks do not overlap, and the abstract bytes are those in RAM.
  ghost predicate Stored(bytes: seq<byte>, mem: map<Addr, Block>) {
    && (forall p | p in mem :: p + MEM_BLOCK_SIZE <= |bytes| && bytes[p..p + MEM_BLOCK_SIZE] == mem[p])
    && (forall p, p' | p in mem && p' in mem && p < p' :: p + MEM_BLOCK_SIZE <= p')
  }

  class Allocator {
    var availableBlocks: MemBlock?
    var usedBlocks: MemBlock?
    const ram: array<byte>

    // The abstract state, and the header of every block.
    ghost var A: Alloc
    ghost var headers: map<Addr, MemBlock>
    ghost var nodes: set<MemBlock>

    ghost predicate Table()
      reads this, nodes
    {
      && A.owner.Keys == headers.Keys && A.mem.Keys == headers.Keys
      && (forall n | n in nodes :: n.startBlock in headers && headers[n.startBlock] == n)
      && (forall p | p in headers :: headers[p] in nodes && headers[p].startBlock == p && A.owner[p] == headers[p].pid)
      && ListsOk(A.free, A.used, headers.Keys)
    }

    function Head(used: bool): MemBlock?
      reads this
    {
      if used then usedBlocks else availableBlocks
    }

    // The next fields from the given header on spell out the list q.
    ghost predicate Chained(head: MemBlock?, q: seq<Addr>)
      reads this, nodes
    {
      && head == Ptr(headers, HeadOf(q))
      && forall p | p in headers && headers[p] in nodes && p in q :: headers[p].next == Ptr(headers, NextIn(q, p))
    }

    ghost predicate Linked()
      reads this, nodes
    {
      Chained(availableBlocks, A.free) && Chained(usedBlocks, A.used)
    }

    ghost predicate Valid()
      reads this, nodes, ram
    {
      Table() && Linked() && Stored(ram[..], A.mem)
    }

    // init_memory; the heap comes zeroed from malloc, so the first block has pid 0.
    constructor (base: Addr, cap: nat)
      requires base > 0 && cap > 0
      ensures Valid() && A == FreshAlloc(base, cap)
      ensures fresh(ram) && fresh(nodes)
    {
      hide *;
      var heap := NewHeap(base + cap * MEM_BLOCK_SIZE);
      var headBlock := new MemBlock(base, 0);
      ram := heap;
      availableBlocks, usedBlocks := headBlock, null;
      A := FreshAlloc(base, 1);
      headers, nodes := map[base := headBlock], {headBlock};
      new;
      OneBlock(base, headBlock);
      AddBlocks(base, cap, headBlock);
    }

    lemma OneBlock(base: Addr, headBlock: MemBlock)
      requires A == FreshAlloc(base, 1) && headers == map[base := headBlock] && nodes == {headBlock}
      requires headBlock.startBlock == base && headBlock.pid == 0 && headBlock.next == null
      requires availableBlocks == headBlock && usedBlocks == null
      requires base + MEM_BLOCK_SIZE <= ram.Length && forall i | 0 <= i < ram.Length :: ram[i] == 0
      ensures Valid() && headers.Keys == Elems(A.free)
    {
      hide Stored, FreshAlloc;
      assert ram[..] == Zeros(ram.Length);
      FirstBlock(base, ram[..]);
      FirstLinks(base);
      assert Table();
      assert Linked();
    }

    // The loop of init_memory, which keeps a pointer to the last block.
    method AddBlocks(base: Addr, cap: nat, headBlock: MemBlock)
      requires Valid() && cap > 0 && A == FreshAlloc(base, 1) && ram.Length == base + cap * MEM_BLOCK_SIZE
      requires nodes == {headBlock} && headBlock.startBlock == base && headers.Keys == Elems(A.free)
      modifies this`A, this`headers, this`nodes, nodes`next, ram
      ensures Valid() && A == FreshAlloc(base, cap) && fresh(nodes - old(nodes))
    {
      hide Valid, FreshAlloc, Elems;
      FirstBlocks(base);
      var tempPoint := headBlock;
      for i := 1 to cap
        invariant Valid() && A == FreshAlloc(base, i) && tempPoint in nodes && IsLast(A.free, tempPoint.startBlock)
        invariant fresh(nodes - old(nodes)) && headers.Keys == Elems(A.free)
      {
        tempPoint := AddNext(base, cap, i, tempPoint);
      }
    }

    // One turn of that loop.
    method AddNext(base: Addr, cap: nat, i: nat, tempPoint: MemBlock) returns (block: MemBlock)
      requires Valid() && 0 < i < cap && A == FreshAlloc(base, i) && ram.Length == base + cap * MEM_BLOCK_SIZE
      requires tempPoint in nodes && IsLast(A.free, tempPoint.startBlock) && headers.Keys == Elems(A.free)
      modifies this`A, this`headers, this`nodes, nodes`next, ram
      ensures Valid() && A == FreshAlloc(base, i + 1) && nodes == old(nodes) + {block} && fresh(block)
      ensures IsLast(A.free, block.startBlock) && headers.Keys == Elems(A.free)
    {
      hide Valid, FreshAlloc;
      BlocksBelow(base, i, cap);
      FreshNext(base, i);
      block := CreateBlock(base + i * MEM_BLOCK_SIZE);
      LinkAfter(tempPoint, block);
    }

    // A zeroed block with its header, in no list yet.
    method CreateBlock(start: Addr) returns (block: MemBlock)
      requires Valid() && start + MEM_BLOCK_SIZE <= ram.Length
      requires forall p | p in headers :: p + MEM_BLOCK_SIZE <= start
      modifies this`A, this`headers, this`nodes, ram
      ensures Valid() && headers.Keys == old(headers.Keys) + {start}
      ensures nodes == old(nodes) + {block} && fresh(block) && block.startBlock == start && !A.Knows(start)
      ensures A == old(A).(owner := old(A).owner[start := NO_OWNER], mem := old(A).mem[start := Zeros(MEM_BLOCK_SIZE)])
    {
      hide NextIn, HeadOf, ListsOk, Stored;
      ghost var bytes := ram[..];
      ZeroBytes(ram, start);
      SameStored(bytes, ram[..], A.mem, start);
      block := new MemBlock(start, NO_OWNER);
      Register(block);
    }

    // The header enters the table of blocks.
    ghost method Register(block: MemBlock)
      requires Valid() && block !in nodes && block.startBlock !in headers && block.pid == NO_OWNER && block.next == null
      requires Stored(ram[..], A.mem[block.startBlock := Zeros(MEM_BLOCK_SIZE)])
      modifies this`A, this`headers, this`nodes
      ensures Valid() && headers.Keys == old(headers.Keys) + {block.startBlock} && nodes == old(nodes) + {block}
      ensures A == old(A).(owner := old(A).owner[block.startBlock := NO_OWNER],
                           mem := old(A).mem[block.startBlock := Zeros(MEM_BLOCK_SIZE)])
      ensures !A.Knows(block.startBlock)
    {
      hide NextIn, HeadOf, ListsOk, Stored, Ptr;
      ListsGrow(A, headers.Keys, block.startBlock);
      PtrGrows(headers, block);
      headers, nodes := headers[block.startBlock := block], nodes + {block};
      assert headers.Keys == old(headers.Keys) + {block.startBlock};
      A := A.(owner := A.owner[block.startBlock := NO_OWNER], mem := A.mem[block.startBlock := Zeros(MEM_BLOCK_SIZE)]);
    }

    // The pointers already spell out q instead of one of the lists.
    ghost method Replace(used: bool, q: seq<Addr>)
      requires Table() && Stored(ram[..], A.mem)
      requires var a := WithList(A, used, q); ListsOk(a.free, a.used, headers.Keys)
      requires Chained(Head(used), q) && Chained(Head(!used), ListOf(A, !used))
      modifies this`A
      ensures Valid() && A == WithList(old(A), used, q)
    {
      hide Stored, NextIn, HeadOf, ListsOk, Ptr;
      A := WithList(A, used, q);
    }

    // tempPoint->next = block
    method LinkAfter(tail: MemBlock, block: MemBlock)
      requires Valid() && tail in nodes && block in nodes && IsLast(A.free, tail.startBlock)
      requires !A.Knows(block.startBlock)
      modifies this`A, tail`next, block`next
      ensures Valid() && A == old(A).(free := old(A).free + [block.startBlock])
    {
      hide Stored, NextIn, HeadOf, ListsOk;
      ListsAppend(A, headers.Keys, false, block.startBlock);
      LinkBehind(false, tail, block);
      Replace(false, A.free + [block.startBlock]);
    }

    // The pointer writes that put a block behind the last one of a list.
    method LinkBehind(used: bool, tail: MemBlock, block: MemBlock)
      requires Valid() && tail in nodes && block in nodes && IsLast(ListOf(A, used), tail.startBlock)
      requires !A.Knows(block.startBlock)
      modifies tail`next, block`next
      ensures Table() && Chained(Head(used), ListOf(A, used) + [block.startBlock])
      ensures Chained(Head(!used), ListOf(A, !used))
    {
      hide Stored, NextIn, HeadOf, ListsOk, NoDup;
      ListsAppend(A, headers.Keys, used, block.startBlock);
      AppendLinks(ListOf(A, used), block.startBlock);
      tail.next := block;
      block.next := null;
    }

    // void_to_block
    method VoidToBlock(ptr: Addr) returns (block: MemBlock?)
      requires Valid()
      ensures block == null <==> !A.Knows(ptr)
      ensures block != null ==> ptr in headers && block == headers[ptr]
    {
      block := FindFrom(availableBlocks, A.free, ptr);
      if block != null {
        return;
      }
      block := FindFrom(usedBlocks, A.used, ptr);
    }

    // The walk along one of the two lists.
    method FindFrom(head: MemBlock?, ghost q: seq<Addr>, ptr: Addr) returns (block: MemBlock?)
      requires Valid() && (q == A.free || q == A.used) && head == Ptr(headers, HeadOf(q))
      ensures block == null <==> ptr !in q
      ensures block != null ==> ptr in headers && block == headers[ptr]
    {
      hide Stored, NextIn;
      assert forall p | p in q :: A.Knows(p);
      block := head;
      ghost var i := 0;
      while block != null
        invariant 0 <= i <= |q| && ptr !in q[..i]
        invariant block == if i < |q| && q[i] in headers then headers[q[i]] else null
        decreases |q| - i
      {
        AtIndex(q, i);
        if block.startBlock == ptr {
          return block;
        }
        block := block.next;
        i := i + 1;
      }
      assert q[..i] == q;
    }

    // dequeue_mem_block
    method DequeueMemBlock(used: bool) returns (block: MemBlock?)
      requires Valid()
      modifies this`A, this`availableBlocks, this`usedBlocks
      ensures Valid() && (block == null <==> ListOf(old(A), used) == [])
      ensures block == null ==> A == old(A)
      ensures block != null ==> block in nodes && block.startBlock == ListOf(old(A), used)[0]
      ensures block != null ==> A == WithList(old(A), used, ListOf(old(A), used)[1..])
    {
      hide Stored, NextIn, HeadOf, ListsOk;
      HeadIs(used);
      block := Head(used);
      if block == null {
        return;
      }
      ListsTake(A, headers.Keys, used);
      TailLinks(ListOf(A, used));
      if used {
        usedBlocks := block.next;
      } else {
        availableBlocks := block.next;
      }
      Replace(used, ListOf(A, used)[1..]);
    }

    lemma HeadIs(used: bool)
      requires Valid()
      ensures Head(used) == null <==> ListOf(A, used) == []
      ensures Head(used) != null ==> Head(used) in nodes && Head(used).startBlock == ListOf(A, used)[0]
    {
      HeadMeans(ListOf(A, used));
    }

    // The walk to the end of a non-empty list.
    method LastOf(head: MemBlock, ghost q: seq<Addr>) returns (block: MemBlock)
      requires Valid() && (q == A.free || q == A.used) && head == Ptr(headers, HeadOf(q))
      ensures block in nodes && IsLast(q, block.startBlock)
    {
      hide Stored, NextIn;
      block := head;
      ghost var i := 0;
      assert forall p | p in q :: A.Knows(p);
      AtIndex(q, 0);
      while block.next != null
        invariant 0 <= i < |q| && q[i] in headers && block == headers[q[i]] && q[i] in q
        invariant NextIn(q, q[i]) == if i + 1 < |q| then Some(q[i + 1]) else None
        decreases |q| - i
      {
        block := block.next;
        i := i + 1;
        AtIndex(q, i);
      }
    }

    // enqueue_mem_block
    method EnqueueMemBlock(used: bool, block: MemBlock)
      requires Valid() && block in nodes && !A.Knows(block.startBlock)
      modifies this`A, this`availableBlocks, this`usedBlocks, nodes`next
      ensures Valid() && A == WithList(old(A), used, ListOf(old(A), used) + [block.startBlock])
    {
      hide Stored, NextIn, HeadOf, ListsOk, Ptr, Linked;
      HeadIs(used);
      ListsAppend(A, headers.Keys, used, block.startBlock);
      var head := Head(used);
      if head == null {
        LinkFirst(used, block);
        assert ListOf(A, used) + [block.startBlock] == [block.startBlock];
      } else {
        HeadChained(used);
        var mem := LastOf(head, ListOf(A, used));
        LinkBehind(used, mem, block);
      }
      Replace(used, ListOf(A, used) + [block.startBlock]);
    }

    lemma HeadChained(used: bool)
      requires Valid()
      ensures Head(used) == Ptr(headers, HeadOf(ListOf(A, used)))
    {
    }

    // The pointer writes that put a block into an empty list.
    method LinkFirst(used: bool, block: MemBlock)
      requires Valid() && block in nodes && !A.Knows(block.startBlock) && ListOf(A, used) == []
      modifies this`availableBlocks, this`usedBlocks, block`next
      ensures Table() && Chained(Head(used), [block.startBlock]) && Chained(Head(!used), ListOf(A, !used))
    {
      hide Stored, ListsOk;
      ListsAppend(A, headers.Keys, used, block.startBlock);
      FirstLinks(block.startBlock);
      if used {
        usedBlocks := block;
      } else {
        availableBlocks := block;
      }
      block.next := null;
    }

    // The walk to the block in front of the given one, which is not at the head.
    method Before(used: bool, block: MemBlock) returns (prevBlock: MemBlock?)
      requires Valid() && block in nodes && HeadOf(ListOf(A, used)) != Some(block.startBlock)
      ensures prevBlock == null <==> block.startBlock !in ListOf(A, used)
      ensures prevBlock != null ==> prevBlock in nodes && prevBlock.startBlock in ListOf(A, used)
      ensures prevBlock != null ==> NextIn(ListOf(A, used), prevBlock.startBlock) == Some(block.startBlock)
    {
      hide Stored, NextIn;
      ghost var q, x := ListOf(A, used), block.startBlock;
      assert forall p | p in q :: A.Knows(p);
      prevBlock := Head(used);
      ghost var i := 0;
      if q != [] {
        AtIndex(q, 0);
      }
      while prevBlock != null && prevBlock.next != block
        invariant 0 <= i <= |q| && x !in q[..i] && (i < |q| ==> q[i] != x)
        invariant prevBlock == if i < |q| && q[i] in headers then headers[q[i]] else null
        decreases |q| - i
      {
        AtIndex(q, i);
        if i + 1 < |q| {
          AtIndex(q, i + 1);
        }
        prevBlock := prevBlock.next;
        i := i + 1;
      }
      if prevBlock == null {
        assert q[..i] == q;
      } else {
        AtIndex(q, i);
      }
    }

    // remove_mem_block: the block leaves the list if it is there and belongs to the caller.
    method RemoveMemBlock(used: bool, block: MemBlock?, currentPid: int) returns (removed: MemBlock?)
      requires Valid() && (block != null ==> block in nodes)
      modifies this`A, this`availableBlocks, this`usedBlocks, nodes`next
      ensures Valid()
      ensures removed == null <==> block == null || block.startBlock !in ListOf(old(A), used)
                                   || old(A).Owner(block.startBlock) != currentPid
      ensures removed == null ==> A == old(A)
      ensures removed != null ==> removed == block
      ensures removed != null ==> A == WithList(old(A), used, Without(ListOf(old(A), used), block.startBlock))
    {
      hide Stored, NextIn, HeadOf, Without, ListsOk;
      HeadIs(used);
      if block == null {
        return null;
      }
      HeadMeans(ListOf(A, used));
      var prevBlock: MemBlock? := null;
      if Head(used) != block {
        prevBlock := Before(used, block);
        if prevBlock == null {
          return null;
        }
      }
      if block.pid != currentPid {
        return null;
      }
      if prevBlock != null {
        UnlinkBehind(used, block, prevBlock);
      } else {
        UnlinkHead(used, block);
      }
      return block;
    }

    // The block at the head of a list leaves it.
    method UnlinkHead(used: bool, block: MemBlock)
      requires Valid() && block in nodes && HeadOf(ListOf(A, used)) == Some(block.startBlock)
      modifies this`A, this`availableBlocks, this`usedBlocks
      ensures Valid() && A == WithList(old(A), used, Without(ListOf(old(A), used), block.startBlock))
    {
      hide Stored, NextIn, HeadOf, Without, ListsOk;
      HeadMeans(ListOf(A, used));
      ListsRemove(A, headers.Keys, used, block.startBlock);
      RemoveLinks(ListOf(A, used), block.startBlock);
      FirstHasNoPredecessor(ListOf(A, used), block.startBlock);
      if used {
        usedBlocks := block.next;
      } else {
        availableBlocks := block.next;
      }
      Replace(used, Without(ListOf(A, used), block.startBlock));
    }

    // The block behind prevBlock leaves its list.
    method UnlinkBehind(used: bool, block: MemBlock, prevBlock: MemBlock)
      requires Valid() && block in nodes && block.startBlock in ListOf(A, used)
      requires prevBlock in nodes && prevBlock.startBlock in ListOf(A, used)
      requires NextIn(ListOf(A, used), prevBlock.startBlock) == Some(block.startBlock)
      modifies this`A, prevBlock`next
      ensures Valid() && A == WithList(old(A), used, Without(ListOf(old(A), used), block.startBlock))
    {
      hide Stored, NextIn, HeadOf, Without, ListsOk;
      ListsRemove(A, headers.Keys, used, block.startBlock);
      RemoveLinks(ListOf(A, used), block.startBlock);
      OnlyPredecessor(ListOf(A, used), block.startBlock, prevBlock.startBlock);
      prevBlock.next := block.next;
      Replace(used, Without(ListOf(A, used), block.startBlock));
    }

    // ---------- the bytes of a block ----------

    method LoadWord(ptr: Addr, off: nat) returns (v: nat)
      requires Valid() && ptr in headers && off + 4 <= MEM_BLOCK_SIZE
      ensures v == Word(A.mem[ptr], off)
    {
      v := GetBytes(ram, ptr + off);
      WordAt(ram[..], ptr, off);
    }

    method StoreWord(ptr: Addr, off: nat, v: nat)
      requires Valid() && ptr in headers && off + 4 <= MEM_BLOCK_SIZE && v < WORD
      modifies this`A, ram
      ensures Valid() && A == Write(old(A), ptr, PutWord(old(A).mem[ptr], off, v))
    {
      hide Stored, ListsOk, PutWord, Word, NextIn, HeadOf;
      ghost var bytes := ram[..];
      Fits(bytes, A.mem, ptr);
      PutBytes(ram, ptr + off, v);
      PutWordAt(bytes, ptr, off, v);
      StoredAfter(bytes, ram[..], A.mem, ptr);
      A := Write(A, ptr, PutWord(A.mem[ptr], off, v));
    }

    // zero_memory
    method ZeroMemory(ptr: Addr)
      requires Valid() && ptr in headers
      modifies this`A, ram
      ensures Valid() && A == Write(old(A), ptr, Zeros(MEM_BLOCK_SIZE))
    {
      hide Stored, ListsOk, NextIn, HeadOf;
      ghost var bytes := ram[..];
      Fits(bytes, A.mem, ptr);
      ZeroBytes(ram, ptr);
      StoredAfter(bytes, ram[..], A.mem, ptr);
      A := Write(A, ptr, Zeros(MEM_BLOCK_SIZE));
    }

    // A process writes the bytes of a block it holds.
    method StoreBlock(ptr: Addr, block: Block)
      requires Valid() && ptr in headers
      modifies this`A, ram
      ensures Valid() && A == Write(old(A), ptr, block)
    {
      hide Stored, ListsOk, NextIn, HeadOf;
      ghost var bytes := ram[..];
      Fits(bytes, A.mem, ptr);
      FillBytes(ram, ptr, block);
      StoredAfter(bytes, ram[..], A.mem, ptr);
      A := Write(A, ptr, block);
    }

    // ---------- the primitives of mem.c ----------

    // The part of request_memory_block_handler after its wait loop.
    method TakeBlock(currentPid: Pid) returns (ptr: Addr)
      requires Valid() && A.free != []
      modifies this`A, this`availableBlocks, this`usedBlocks, nodes
      ensures Valid() && A == Take(old(A), currentPid) && ptr == old(A).free[0]
    {
      hide Stored, NextIn, HeadOf, Linked;
      ListsTake(A, headers.Keys, false);
      HeadIs(false);
      var block := availableBlocks;
      SetPid(block, currentPid);
      var _ := DequeueMemBlock(false);
      EnqueueMemBlock(true, block);
      return block.startBlock;
    }

    // block->pid = pid
    method SetPid(block: MemBlock, pid: int)
      requires Valid() && block in nodes
      modifies this`A, block`pid
      ensures Valid() && A == old(A).(owner := old(A).owner[block.startBlock := pid])
    {
      hide Stored, NextIn, HeadOf, ListsOk, Ptr;
      block.pid := pid;
      A := A.(owner := A.owner[block.startBlock := pid]);
    }

    // release_memory_handler up to the wake-up
    method GiveBlock(ptr: Addr, currentPid: Pid) returns (code: int)
      requires Valid()
      modifies this`A, this`availableBlocks, this`usedBlocks, nodes, ram
      ensures Valid() && code == GiveCode(old(A), ptr, currentPid) && A == Give(old(A), ptr, currentPid)
    {
      hide Stored, NextIn, Without, ListsOk;
      if usedBlocks == null {
        UsedMeans();
        return 1;
      }
      var block := VoidToBlock(ptr);
      if block == null {
        return 2;
      }
      UsedMeans();
      var removed := RemoveMemBlock(true, block, currentPid);
      if removed == null {
        return 3;
      }
      ListsRemove(old(A), headers.Keys, true, ptr);
      ZeroMemory(ptr);
      SetPid(removed, NO_OWNER);
      EnqueueMemBlock(false, removed);
      return 0;
    }

    lemma UsedMeans()
      requires Valid()
      ensures usedBlocks == null <==> A.used == []
      ensures forall p | p in A.free :: p !in A.used
    {
      HeadMeans(A.used);
    }

    lemma KnownMeans()
      requires Valid()
      ensures headers.Keys == A.mem.Keys && forall p | A.Knows(p) :: p in headers
    {
    }

    lemma AvailableMeans()
      requires Valid()
      ensures availableBlocks == null <==> A.free == []
    {
      HeadMeans(A.free);
    }

    // reassign_mem_block
    method ReassignMemBlock(ptr: Addr, newPid: Pid)
      requires Valid() && A.Knows(ptr)
      modifies this`A, nodes`pid
      ensures Valid() && A == Reassign(old(A), ptr, newPid)
    {
      hide Stored, NextIn, HeadOf, ListsOk;
      var block := VoidToBlock(ptr);
      SetPid(block, newPid);
    }
  }

  lemma PtrGrows(headers: map<Addr, MemBlock>, block: MemBlock)
    ensures var t := headers[block.startBlock := block];
      forall link | link != Some(block.startBlock) :: Ptr(t, link) == Ptr(headers, link)
  {
  }

  // A block that is new to the table is in no list, and no link leads to it.
  lemma ListsGrow(a: Alloc, blocks: set<Addr>, x: Addr)
    requires ListsOk(a.free, a.used, blocks) && x !in blocks
    ensures ListsOk(a.free, a.used, blocks + {x}) && !a.Knows(x)
    ensures HeadOf(a.free) != Some(x) && HeadOf(a.used) != Some(x)
    ensures forall p | p in a.free :: NextIn(a.free, p) != Some(x)
    ensures forall p | p in a.used :: NextIn(a.used, p) != Some(x)
  {
  }

  lemma SameStored(bytes: seq<byte>, bytes': seq<byte>, mem: map<Addr, Block>, ptr: Addr)
    requires Stored(bytes, mem) && |bytes'| == |bytes| && ptr + MEM_BLOCK_SIZE <= |bytes|
    requires forall p | p in mem :: p + MEM_BLOCK_SIZE <= ptr
    requires forall i | 0 <= i < |bytes| && !(ptr <= i < ptr + MEM_BLOCK_SIZE) :: bytes'[i] == bytes[i]
    ensures Stored(bytes', mem) && Stored(bytes', mem[ptr := bytes'[ptr..ptr + MEM_BLOCK_SIZE]])
  {
    forall p | p in mem
      ensures bytes'[p..p + MEM_BLOCK_SIZE] == mem[p]
    {
      assert bytes'[p..p + MEM_BLOCK_SIZE] == bytes[p..p + MEM_BLOCK_SIZE];
    }
  }

  lemma FirstBlock(base: Addr, bytes: seq<byte>)
    requires base + MEM_BLOCK_SIZE <= |bytes| && bytes == Zeros(|bytes|)
    ensures FreshAlloc(base, 1) == Alloc([base], [], map[base := 0], map[base := Zeros(MEM_BLOCK_SIZE)])
    ensures Stored(bytes, FreshAlloc(base, 1).mem)
  {
    assert Blocks(base, 1) == [base];
    assert bytes[base..base + MEM_BLOCK_SIZE] == Zeros(MEM_BLOCK_SIZE);
  }

  lemma FirstLinks(base: Addr)
    ensures ListsOk([base], [], {base}) && HeadOf([base]) == Some(base)
    ensures HeadOf([]) == None && NextIn([base], base) == None
    ensures Elems([base]) == {base}
  {
  }

  lemma FirstBlocks(base: Addr)
    ensures FreshAlloc(base, 1).free == [base]
  {
  }

  lemma FreshNext(base: Addr, i: nat)
    requires i > 0
    ensures var a, start := FreshAlloc(base, i), base + i * MEM_BLOCK_SIZE;
      && FreshAlloc(base, i + 1) == a.(free := a.free + [start], owner := a.owner[start := NO_OWNER],
                                       mem := a.mem[start := Zeros(MEM_BLOCK_SIZE)])
      && a.used == []
  {
    assert Blocks(base, i + 1) == Blocks(base, i) + [base + i * MEM_BLOCK_SIZE];
  }

  lemma BlocksBelow(base: Addr, i: nat, cap: nat)
    requires i < cap
    ensures forall p | p in FreshAlloc(base, i).free :: p + MEM_BLOCK_SIZE <= base + i * MEM_BLOCK_SIZE
    ensures base + i * MEM_BLOCK_SIZE + MEM_BLOCK_SIZE <= base + cap * MEM_BLOCK_SIZE
  {
  }

  // malloc, which hands out zeroed memory
  method NewHeap(size: nat) returns (ram: array<byte>)
    ensures fresh(ram) && ram.Length == size && forall i | 0 <= i < size :: ram[i] == 0
  {
    ram := new byte[size];
    for i := 0 to size
      invariant forall j | 0 <= j < i :: ram[j] == 0
    {
      ram[i] := 0;
    }
  }

  // Words are read and written most significant byte first.
  method GetBytes(ram: array<byte>, a: nat) returns (v: nat)
    requires a + 4 <= ram.Length
    ensures v == Word(ram[..], a)
  {
    v := ram[a] as int * 0x100_0000 + ram[a + 1] as int * 0x1_0000 + ram[a + 2] as int * 0x100 + ram[a + 3] as int;
  }

  method PutBytes(ram: array<byte>, a: nat, v: nat)
    requires a + 4 <= ram.Length && v < WORD
    modifies ram
    ensures ram[..] == PutWord(old(ram[..]), a, v)
  {
    ram[a] := WordByte(v, 0);
    ram[a + 1] := WordByte(v, 1);
    ram[a + 2] := WordByte(v, 2);
    ram[a + 3] := WordByte(v, 3);
  }

  method FillBytes(ram: array<byte>, ptr: nat, block: Block)
    requires ptr + MEM_BLOCK_SIZE <= ram.Length
    modifies ram
    ensures ram[ptr..ptr + MEM_BLOCK_SIZE] == block
    ensures forall j | 0 <= j < ram.Length && !(ptr <= j < ptr + MEM_BLOCK_SIZE) :: ram[j] == old(ram[j])
  {
    for i := 0 to MEM_BLOCK_SIZE
      invariant forall j | ptr <= j < ptr + i :: ram[j] == block[j - ptr]
      invariant forall j | 0 <= j < ram.Length && !(ptr <= j < ptr + i) :: ram[j] == old(ram[j])
    {
      ram[ptr + i] := block[i];
    }
  }

  method ZeroBytes(ram: array<byte>, ptr: nat)
    requires ptr + MEM_BLOCK_SIZE <= ram.Length
    modifies ram
    ensures ram[ptr..ptr + MEM_BLOCK_SIZE] == Zeros(MEM_BLOCK_SIZE)
    ensures forall j | 0 <= j < ram.Length && !(ptr <= j < ptr + MEM_BLOCK_SIZE) :: ram[j] == old(ram[j])
  {
    for i := 0 to MEM_BLOCK_SIZE
      invariant forall j | ptr <= j < ptr + i :: ram[j] == 0
      invariant forall j | 0 <= j < ram.Length && !(ptr <= j < ptr + i) :: ram[j] == old(ram[j])
    {
      ram[ptr + i] := 0;
    }
  }

  lemma WordAt(bytes: seq<byte>, ptr: Addr, off: nat)
    requires ptr + MEM_BLOCK_SIZE <= |bytes| && off + 4 <= MEM_BLOCK_SIZE
    ensures Word(bytes[ptr..ptr + MEM_BLOCK_SIZE], off) == Word(bytes, ptr + off)
  {
  }

  lemma PutWordAt(bytes: seq<byte>, ptr: Addr, off: nat, v: nat)
    requires ptr + MEM_BLOCK_SIZE <= |bytes| && off + 4 <= MEM_BLOCK_SIZE && v < WORD
    ensures var t := PutWord(bytes, ptr + off, v);
      && t[ptr..ptr + MEM_BLOCK_SIZE] == PutWord(bytes[ptr..ptr + MEM_BLOCK_SIZE], off, v)
      && forall i | 0 <= i < |bytes| && !(ptr <= i < ptr + MEM_BLOCK_SIZE) :: t[i] == bytes[i]
  {
  }

  lemma Fits(bytes: seq<byte>, mem: map<Addr, Block>, ptr: Addr)
    requires Stored(bytes, mem) && ptr in mem
    ensures ptr + MEM_BLOCK_SIZE <= |bytes| && bytes[ptr..ptr + MEM_BLOCK_SIZE] == mem[ptr]
  {
  }

  // Only the bytes of one block have changed.
  lemma StoredAfter(bytes: seq<byte>, bytes': seq<byte>, mem: map<Addr, Block>, ptr: Addr)
    requires Stored(bytes, mem) && ptr in mem && |bytes'| == |bytes|
    requires forall i | 0 <= i < |bytes| && !(ptr <= i < ptr + MEM_BLOCK_SIZE) :: bytes'[i] == bytes[i]
    ensures Stored(bytes', mem[ptr := bytes'[ptr..ptr + MEM_BLOCK_SIZE]])
  {
    forall p | p in mem && p != ptr
      ensures bytes'[p..p + MEM_BLOCK_SIZE] == mem[p]
    {
      assert bytes'[p..p + MEM_BLOCK_SIZE] == bytes[p..p + MEM_BLOCK_SIZE];
    }
  }

  lemma FirstHasNoPredecessor(q: seq<Addr>, x: Addr)
    requires NoDup(q) && x in q && HeadOf(q) == Some(x)
    ensures forall z | z in q :: NextIn(q, z) != Some(x)
  {
    forall z | z in q ensures NextIn(q, z) != Some(x) {
      OnePredecessor(q, x, z);
    }
  }

  lemma OnlyPredecessor(q: seq<Addr>, x: Addr, y: Addr)
    requires NoDup(q) && x in q && y in q && NextIn(q, y) == Some(x)
    ensures HeadOf(q) != Some(x) && forall z | z in q && z != y :: NextIn(q, z) != Some(x)
  {
    OnePredecessor(q, x, y);
    forall z | z in q && z != y ensures NextIn(q, z) != Some(x) {
      OnePredecessor(q, x, z);
    }
  }

  lemma HeadMeans(q: seq<Addr>)
    ensures HeadOf(q) == None <==> q == []
    ensures HeadOf(q).Some? ==> HeadOf(q).value in q
  {
  }
}
