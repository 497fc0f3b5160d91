/**
 What the heap allocator guarantees over every run: the region stays filled, allocation
 fails only when it must, and freeing undoes allocating.
 */
module HeapRuns {
  import opened Options
  import opened Heap

  // ---------- allocation in terms of carving ----------

  lemma InIndex(free: map<nat, nat>, b: Block)
    ensures b in Index(free) <==> b.addr in free && free[b.addr] == b.size
  {
  }

  /** The best fit is a free block, the smallest that is long enough, the lowest of those. */
  lemma BestFitFits(h: Heap, need: nat)
    requires h.bySize == Index(h.free)
    ensures match BestFit(h.bySize, need)
      case None => forall a | a in h.free :: h.free[a] < need
      case Some(b) =>
        && b.addr in h.free && h.free[b.addr] == b.size >= need
        && forall a | a in h.free && h.free[a] >= need :: b.size < h.free[a] || (b.size == h.free[a] && b.addr <= a)
  {
    forall a | a in h.free ensures Block(a, h.free[a]) in h.bySize { InIndex(h.free, Block(a, h.free[a])); }
    var r := BestFit(h.bySize, need);
    if r.Some? { InIndex(h.free, r.value); }
  }

  lemma KeptIndex(h: Heap)
    requires Kept(h)
    ensures h.bySize == Index(h.free)
  {
  }

  lemma AllocateIs(h: Heap, size: Size)
    requires Kept(h)
    ensures match BestFit(h.bySize, RoundUp(size))
      case None => Allocate(h, size) == (h, 0)
      case Some(b) =>
        && b.addr in h.free && b.addr + RoundUp(size) <= b.addr + h.free[b.addr]
        && Allocate(h, size) == (AddBusy(Carve(h, b.addr, b.addr, RoundUp(size)), b.addr, size, b.addr + RoundUp(size)), b.addr)
  {
    hide RoundUp, Tiles, Apart, Blocks, Index, BestFit;
    BestFitFits(h, RoundUp(size));
    var b := BestFit(h.bySize, RoundUp(size));
    if b.Some? { FreeInside(h, b.value.addr); }
  }

  /** Plain allocation keeps the invariant exactly when it finds nothing, or the rounded size is not 0. */
  lemma AllocateKept(h: Heap, size: Size)
    requires Kept(h)
    ensures Kept(Allocate(h, size).0) <==> RoundUp(size) > 0 || h.free == map[]
  {
    AllocateIs(h, size);
    KeptIndex(h);
    hide Kept, Carve, AddBusy, RoundUp, BestFit, Allocate;
    var b := BestFit(h.bySize, RoundUp(size));
    if RoundUp(size) > 0 {
      if b.Some? { CarvedKept(h, b.value.addr, b.value.addr, size); }
    } else if h.free == map[] {
      BestFitFits(h, RoundUp(size));
    } else {
      BestFitFits(h, RoundUp(size));
      var a :| a in h.free;
      EmptyBlockBreaks(h, size, b.value.addr);
    }
  }

  /** A block of rounded size 0 shares its address with the free block it came from. */
  lemma EmptyBlockBreaks(h: Heap, size: Size, a: nat)
    requires Kept(h) && a in h.free && RoundUp(size) == 0
    ensures !Kept(AddBusy(Carve(h, a, a, 0), a, size, a))
  {
    var h' := AddBusy(Carve(h, a, a, 0), a, size, a);
    FreeInside(h, a);
    assert a in h'.busy && a in h'.free;
    assert a in h'.busy.Keys && a in h'.free.Keys;
  }

  // ---------- allocation fails only when it must ----------

  ghost predicate FreeAt(h: Heap, x: nat) {
    exists a :: a in h.free && a <= x < a + h.free[a]
  }

  /** Every address of [x, x + n) is free, be it in one free block or in several. */
  ghost predicate FreeRun(h: Heap, x: nat, n: nat) {
    forall y: nat | x <= y < x + n :: FreeAt(h, y)
  }

  /** Free blocks do not touch: the address behind one is not free. */
  lemma NotFreeBehind(h: Heap, f: nat)
    requires Apart(h.free) && f in h.free
    ensures !FreeAt(h, f + h.free[f])
  {
    assert forall g | g in h.free && g != f :: g + h.free[g] < f || f + h.free[f] < g;
  }

  /** So a free run lies in one block. */
  lemma RunInOneBlock(h: Heap, x: nat, n: nat) returns (f: nat)
    requires Apart(h.free) && 0 < n && FreeRun(h, x, n)
    ensures f in h.free && f <= x && x + n <= f + h.free[f]
  {
    assert FreeAt(h, x);
    f :| f in h.free && f <= x < f + h.free[f];
    NotFreeBehind(h, f);
    var end: nat := f + h.free[f];
    assert x <= end < x + n ==> FreeAt(h, end);
  }

  lemma BlockIsRun(h: Heap, f: nat, x: nat, n: nat)
    requires f in h.free && f <= x && x + n <= f + h.free[f]
    ensures FreeRun(h, x, n)
  {
  }

  /** Plain allocation answers 0 exactly when no free run of the rounded size exists; otherwise it answers the start
      of one. */
  lemma AllocateComplete(h: Heap, size: Size)
    requires Kept(h) && 0 < RoundUp(size)
    ensures var a := Allocate(h, size).1;
      && (a == 0 <==> forall x: nat :: !FreeRun(h, x, RoundUp(size)))
      && (a != 0 ==> FreeRun(h, a, RoundUp(size)) && a !in h.busy)
  {
    var need := RoundUp(size);
    AllocateIs(h, size);
    BestFitFits(h, need);
    BusyIsNotFree(h);
    hide RoundUp, Tiles, Blocks, Index, BestFit, Allocate, Carve, AddBusy;
    var b := BestFit(h.bySize, need);
    if b.Some? {
      FreeInside(h, b.value.addr);
      BlockIsRun(h, b.value.addr, b.value.addr, need);
    } else {
      forall x: nat ensures !FreeRun(h, x, need) {
        if FreeRun(h, x, need) { var f := RunInOneBlock(h, x, need); }
      }
    }
  }

  /** Placed allocation answers the address asked for exactly when the rounded range there is wholly free, or its end
      wraps around. */
  lemma AllocateAtExact(h: Heap, addr: Address, size: Size)
    requires Kept(h) && 0 < RoundUp(size) && 0 < addr
    ensures AllocateAt(h, addr, size).1 == addr <==> FreeRun(h, addr, RoundUp(size)) || WrapsInto(h, addr, size)
  {
    var need := RoundUp(size);
    hide RoundUp, Tiles, Blocks, Index, Allocate, Carve, AddBusy, FreeRun, AtMost;
    BusyIsNotFree(h);
    AllocateComplete(h, size);
    if FreeRun(h, addr, need) {
      var g := RunInOneBlock(h, addr, need);
      HolderIs(h.free, addr, g);
      FreeInside(h, g);
      hide Kept;
    } else {
      var f := AtMost(h.free.Keys, addr);
      if f.Some? {
        FreeInside(h, f.value);
        hide Kept;
        if addr + need <= f.value + h.free[f.value] { BlockIsRun(h, f.value, addr, need); }
      }
    }
  }

  /** The free block that holds an address is the last one not above it. */
  lemma HolderIs(free: map<nat, nat>, a: nat, g: nat)
    requires Apart(free) && g in free && g <= a < g + free[g]
    ensures AtMost(free.Keys, a) == Some(g)
  {
    hide AtMost;
    assert g in free.Keys;
    assert forall x | x in free && g < x :: a < x;
  }

  // ---------- freeing undoes allocating ----------

  /** Joining a carved block to what was left of the free one gives the free blocks as they were. */
  lemma FreedAfterCarved(free: map<nat, nat>, f: nat, addr: nat, need: nat)
    requires Apart(free) && f in free && f <= addr && addr + need <= f + free[f] && 0 < need
    ensures Freed(Carved(free, f, addr, need), addr, need) == free
  {
    assert forall x | x in free && x != f :: x + free[x] < f || f + free[f] < x;
    CarvedNextJoined(free, f, addr, need);
    hide Carved, JoinNext, Apart;
    JoinedBack(free, f, addr, JoinNext(Carved(free, f, addr, need), addr, need).0);
  }

  lemma CarvedNextJoined(free: map<nat, nat>, f: nat, addr: nat, need: nat)
    requires f in free && f <= addr && addr + need <= f + free[f] && 0 < need
    requires forall x | x in free && x != f :: x + free[x] < f || f + free[f] < x
    ensures JoinNext(Carved(free, f, addr, need), addr, need)
         == (if f < addr then (free - {f})[f := addr - f] else free - {f}, f + free[f] - addr)
  {
    var c, back: nat := Carved(free, f, addr, need), addr + need;
    assert back !in free;
    var rest := if f < addr then (free - {f})[f := addr - f] else free - {f};
    assert back !in rest;
    if back < f + free[f] {
      assert c == rest[back := f + free[f] - back];
      assert c - {back} == rest;
    } else {
      assert c == rest;
    }
  }

  lemma JoinedBack(free: map<nat, nat>, f: nat, addr: nat, f1: map<nat, nat>)
    requires f in free && f <= addr < f + free[f] && forall x | x in free && x != f :: x + free[x] < f || f + free[f] < x
    requires f1 == if f < addr then (free - {f})[f := addr - f] else free - {f}
    ensures JoinPrev(f1, addr, f + free[f] - addr) == free
  {
    hide AtMost;
    if f < addr {
      assert f in f1.Keys;
      assert AtMost(f1.Keys, addr) == Some(f);
      assert JoinPrev(f1, addr, f + free[f] - addr) == (f1 - {f})[f := free[f]];
    } else {
      assert JoinPrev(f1, addr, f + free[f] - addr) == f1[f := free[f]];
    }
  }

  lemma RoundUpAgain(size: Size)
    requires 0 < RoundUp(size)
    ensures RoundUp(RoundUp(size)) == RoundUp(size)
  {
    RoundUpFits(size);
    RoundUpMonotone(size, size);
  }

  /** The free block at f holds the size, rounded, at a, and what is left of it there is h'. */
  predicate CarvedAs(h: Heap, f: nat, a: nat, recorded: Size, h': Heap) {
    && f in h.free && f <= a && a + RoundUp(recorded) <= f + h.free[f]
    && h' == AddBusy(Carve(h, f, a, RoundUp(recorded)), a, recorded, a + RoundUp(recorded))
  }

  lemma PlainIn(h: Heap, size: Size) returns (f: nat)
    requires Kept(h) && Allocate(h, size).1 != 0
    ensures var (h', a) := Allocate(h, size); f == a && CarvedAs(h, f, a, size, h')
  {
    AllocateIs(h, size);
    hide RoundUp, Kept, Allocate, Carve, AddBusy, BestFit;
    f := BestFit(h.bySize, RoundUp(size)).value.addr;
  }

  /** Where an allocation takes place: a free block that holds the rounded size at the address answered. */
  lemma AllocatedIn(h: Heap, addr: Address, size: Size) returns (f: nat, recorded: Size)
    requires Kept(h) && 0 < RoundUp(size) && !WrapsInto(h, addr, size)
    requires AllocateAt(h, addr, size).1 != 0
    ensures var (h', a) := AllocateAt(h, addr, size);
      && CarvedAs(h, f, a, recorded, h') && RoundUp(recorded) == RoundUp(size) && recorded in {size, RoundUp(size)}
      && (a == f || a == addr)
  {
    var need := RoundUp(size);
    RoundUpAgain(size);
    hide RoundUp, Kept, Allocate, Carve, AddBusy, AtMost;
    var g := AtMost(h.free.Keys, addr);
    if g.None? || !SeemsToHold(h, g.value, addr, need) {
      recorded := size;
      hide CarvedAs;
      f := PlainIn(h, size);
    } else {
      f, recorded := g.value, need;
      FreeInside(h, f);
    }
  }

  /** Plain allocation is placed allocation with no free block at or below the place. */
  lemma AllocateIsPlaced(h: Heap, size: Size)
    requires Kept(h)
    ensures AllocateAt(h, 0, size) == Allocate(h, size)
  {
    var f := AtMost(h.free.Keys, 0);
    if f.Some? { FreeInside(h, f.value); }
  }

  lemma AllocateAtKept(h: Heap, addr: Address, size: Size)
    requires Kept(h) && 0 < RoundUp(size) && !WrapsInto(h, addr, size)
    ensures Kept(AllocateAt(h, addr, size).0)
  {
    AllocateKept(h, size);
    RoundUpAgain(size);
    hide RoundUp, Kept, Carve, AddBusy, Allocate;
    var need, f := RoundUp(size), AtMost(h.free.Keys, addr);
    if f.Some? && SeemsToHold(h, f.value, addr, need) {
      FreeInside(h, f.value);
      CarvedKept(h, f.value, addr, need);
    }
  }

  lemma CarveEffect(h: Heap, f: nat, a: nat, recorded: Size)
    requires Kept(h) && f in h.free && f <= a && a + RoundUp(recorded) <= f + h.free[f] && 0 < RoundUp(recorded)
    ensures var need := RoundUp(recorded); var h' := AddBusy(Carve(h, f, a, need), a, recorded, a + need);
      && h'.free == Carved(h.free, f, a, need) && h'.busy == h.busy[a := recorded] && a !in h.busy
  {
    FreeInside(h, f);
    CarvedIndex(h, f, a, RoundUp(recorded));
    InsideIsBlock(h, f, a);
  }

  /** Deallocating what was just allocated, wherever it was placed, restores both free indexes and the busy blocks. */
  lemma FreeUndoesAllocateAt(h: Heap, addr: Address, size: Size)
    requires Kept(h) && 0 < RoundUp(size) && !WrapsInto(h, addr, size) && AllocateAt(h, addr, size).1 != 0
    ensures var (h1, a) := AllocateAt(h, addr, size);
      && a in h1.busy
      && var h2 := Deallocate(h1, a).0; h2.free == h.free && h2.bySize == h.bySize && h2.busy == h.busy
  {
    hide Kept, RoundUp, Carve, AddBusy, AllocateAt, Deallocate, Freed, Carved, Index, WrapsInto;
    var f, recorded := AllocatedIn(h, addr, size);
    var (h1, a) := AllocateAt(h, addr, size);
    AllocateAtKept(h, addr, size);
    CarveEffect(h, f, a, recorded);
    DeallocateIs(h1, a);
    BusyIsNotFree(h);
    KeptIndex(h);
    FreedAfterCarved(h.free, f, a, RoundUp(recorded));
    assert h.busy[a := recorded] - {a} == h.busy;
  }

  lemma NothingWrapsToZero(h: Heap, size: Size)
    requires Kept(h)
    ensures !WrapsInto(h, 0, size)
  {
    var f := AtMost(h.free.Keys, 0);
    if f.Some? { FreeInside(h, f.value); }
  }

  /** The same of plain allocation. */
  lemma FreeUndoesAllocate(h: Heap, size: Size)
    requires Kept(h) && 0 < RoundUp(size) && Allocate(h, size).1 != 0
    ensures var (h1, a) := Allocate(h, size);
      && a in h1.busy
      && var h2 := Deallocate(h1, a).0; h2.free == h.free && h2.bySize == h.bySize && h2.busy == h.busy
  {
    AllocateIsPlaced(h, size);
    NothingWrapsToZero(h, size);
    hide Kept, RoundUp, WrapsInto, Allocate, AllocateAt, Deallocate;
    FreeUndoesAllocateAt(h, 0, size);
  }

  /** With nothing busy the region is one free block. */
  lemma AllFree(h: Heap)
    requires Kept(h) && h.busy == map[]
    ensures h.free == map[h.lo := h.hi - h.lo] && h.bySize == {Block(h.lo, h.hi - h.lo)}
  {
    BlocksAt(h);
    assert h.lo in h.free;
    var end: nat := h.lo + h.free[h.lo];
    assert Blocks(h)[h.lo] == h.free[h.lo];
    assert end != h.hi ==> end in h.free;
    hide Blocks;
    assert forall a | a in h.free :: a == h.lo;
    assert h.free == map[h.lo := h.hi - h.lo];
    forall b ensures b in Index(h.free) <==> b == Block(h.lo, h.hi - h.lo) { InIndex(h.free, b); }
  }

  function FreeEach(h: Heap, order: seq<nat>): Heap
    decreases |order|
  {
    if order == [] then h
    else FreeEach(if order[0] in h.busy then Deallocate(h, order[0]).0 else h, order[1..])
  }

  /** Freeing every live block, in whatever order, gives back the region as one free block. */
  lemma {:induction false} FreeingAllRestores(h: Heap, order: seq<nat>)
    requires Kept(h) && forall a | a in h.busy :: a in order
    ensures var h' := FreeEach(h, order);
      h'.busy == map[] && h'.free == map[h.lo := h.hi - h.lo] && h'.bySize == {Block(h.lo, h.hi - h.lo)}
    decreases |order|
  {
    hide Kept;
    if order == [] {
      AllFree(h);
    } else {
      var h1 := if order[0] in h.busy then Deallocate(h, order[0]).0 else h;
      if order[0] in h.busy {
        DeallocateKept(h, order[0]);
        DeallocateIs(h, order[0]);
      }
      hide Deallocate;
      forall a | a in h1.busy ensures a in order[1..] { assert a in order; }
      FreeingAllRestores(h1, order[1..]);
    }
  }

  // ---------- moving a block to another size ----------

  /** The freed extent lies in one free block. */
  lemma FreedHolds(h: Heap, addr: nat) returns (f: nat)
    requires Kept(h) && addr in h.busy
    ensures var free' := Deallocate(h, addr).0.free; f in free' && f <= addr && addr + RoundUp(h.busy[addr]) <= f + free'[f]
  {
    DeallocateIs(h, addr);
    hide RoundUp, Kept, Deallocate, AtMost;
    var need := RoundUp(h.busy[addr]);
    var (f1, size) := JoinNext(h.free, addr, need);
    f := if EndingAt(f1, addr).Some? then EndingAt(f1, addr).value else addr;
  }

  /** A block that does not grow beyond its recorded size stays in place when it is freed and placed again. */
  lemma ShrinksInPlace(h: Heap, addr: Address, size: Size)
    requires Kept(h) && addr in h.busy && 0 < size <= h.busy[addr]
    ensures var (h1, oldSize) := Deallocate(h, addr);
      oldSize == h.busy[addr] && AllocateAt(h1, addr, size).1 == addr
  {
    var h1 := Deallocate(h, addr).0;
    BusyIsClear(h, addr);
    RoundUpFits(h.busy[addr]);
    RoundUpFits(size);
    RoundUpMonotone(size, h.busy[addr]);
    var f := FreedHolds(h, addr);
    DeallocateKept(h, addr);
    FreeInside(h1, f);
    hide RoundUp, Kept, Deallocate, FreeRun, AllocateAt;
    BlockIsRun(h1, f, addr, RoundUp(size));
    AllocateAtExact(h1, addr, size);
  }

  // ---------- sizes that round to 0 ----------

  /** A request near the end of the word wraps to 0 when it is rounded. It should fail, for lack of room; it does
      exactly if nothing at all is free. */
  lemma WrappedRequest(h: Heap, size: Size)
    requires Kept(h) && size > WORD - MIN_BLOCK && size > h.hi - h.lo
    ensures forall x: nat :: !FreeRun(h, x, size)
    ensures Allocate(h, size).1 == 0 <==> h.free == map[]
  {
    RoundUpFits(size);
    BestFitFits(h, 0);
    KeptIndex(h);
    BusyIsNotFree(h);
    forall x: nat ensures !FreeRun(h, x, size) {
      if FreeRun(h, x, size) {
        var f := RunInOneBlock(h, x, size);
        FreeInside(h, f);
      }
    }
    var b := BestFit(h.bySize, 0);
    if b.Some? { FreeInside(h, b.value.addr); }
  }

  /** A block of size 0 inside a free block shares its address with what is behind it. */
  lemma EmptyInsideBreaks(h: Heap, f: nat, addr: nat)
    requires Kept(h) && f in h.free && f <= addr < f + h.free[f]
    ensures !Kept(AddBusy(Carve(h, f, addr, 0), addr, 0, addr))
  {
    FreeInside(h, f);
    var h' := AddBusy(Carve(h, f, addr, 0), addr, 0, addr);
    assert addr in h'.busy.Keys && addr in h'.free.Keys;
  }

  /** Carving at the end of a free block leaves the free blocks alone. */
  lemma CarveBehind(h: Heap, f: nat, addr: nat, need: Size)
    requires Kept(h) && f in h.free && addr == f + h.free[f]
    ensures Carve(h, f, addr, need) == h
  {
    FreeInside(h, f);
    KeptIndex(h);
    InIndex(h.free, Block(f, h.free[f]));
    var h' := Carve(h, f, addr, need);
    assert h'.free == h.free && h'.bySize == h.bySize;
  }

  lemma EmptyBehind(h: Heap, f: nat, addr: nat)
    requires Kept(h) && f in h.free && addr == f + h.free[f]
    ensures Kept(AddBusy(Carve(h, f, addr, 0), addr, 0, addr)) <==> addr in h.busy
  {
    CarveBehind(h, f, addr, 0);
    var h' := AddBusy(h, addr, 0, addr);
    RoundUpFits(0);
    BlocksAt(h');
    if addr in h.busy {
      assert h' == h;
    } else {
      assert addr !in h.free;
      assert Blocks(h')[addr] == 0;
    }
  }

  lemma EmptyPlaced(h: Heap, addr: Address, size: Size)
    requires Kept(h) && RoundUp(size) == 0 && AtMost(h.free.Keys, addr).Some?
    ensures Kept(AllocateAt(h, addr, size).0) <==> addr in h.busy && EndingAt(h.free, addr).Some?
  {
    hide Kept, Carve, AddBusy, Allocate, RoundUp, AtMost;
    var f := AtMost(h.free.Keys, addr).value;
    if addr < f + h.free[f] {
      EmptyInsideBreaks(h, f, addr);
    } else if addr == f + h.free[f] {
      EmptyBehind(h, f, addr);
    } else {
      AllocateKept(h, size);
    }
  }

  // ---------- places from which the end wraps around ----------

  /** Past the end of the free block, the front part left of it reaches over the blocks in between. */
  lemma FrontOverBusy(h: Heap, f: nat, addr: Address, need: Size, w: nat)
    requires Kept(h) && AtMost(h.free.Keys, addr) == Some(f) && f + h.free[f] < addr && addr in h.busy
    ensures !Kept(AddBusy(Carve(h, f, addr, need), addr, need, w))
  {
    var h', end: nat := AddBusy(Carve(h, f, addr, need), addr, need, w), f + h.free[f];
    FreeInside(h, f);
    BlocksAt(h);
    BlocksAt(h');
    assert end in Blocks(h) by { assert addr in Blocks(h) && Blocks(h)[f] == h.free[f]; }
    assert end in h.busy by { assert end in h.free.Keys ==> end <= f; }
    hide AtMost, Blocks, RoundUp;
    assert f in h'.free && h'.free[f] == addr - f && end in h'.busy;
    assert f in Blocks(h') && end in Blocks(h') && f < end < f + Blocks(h')[f];
  }

  /** A busy block that runs past the last word is none of the region. */
  lemma BusyPastWord(h: Heap, addr: nat)
    requires addr in h.busy && addr + RoundUp(h.busy[addr]) >= WORD
    ensures !Kept(h)
  {
  }

  lemma WrappedPlaced(h: Heap, addr: Address, size: Size)
    requires Kept(h) && 0 < RoundUp(size) && WrapsInto(h, addr, size)
    ensures Kept(AllocateAt(h, addr, size).0) <==> addr in h.busy && EndingAt(h.free, addr).Some?
  {
    var f, need := AtMost(h.free.Keys, addr).value, RoundUp(size);
    var h' := AllocateAt(h, addr, size).0;
    RoundUpAgain(size);
    hide Kept, RoundUp, AtMost, Carve;
    if addr !in h.busy {
      assert h'.busy[addr] == need by { CarveKeepsBusy(h, f, addr, need); }
      BusyPastWord(h', addr);
    } else if f + h.free[f] < addr {
      FrontOverBusy(h, f, addr, need, Wrapped(addr + need));
    } else {
      WrappedBehind(h, f, addr, need);
    }
  }

  lemma CarveKeepsBusy(h: Heap, f: nat, addr: nat, need: Size)
    requires f in h.free && f <= addr
    ensures Carve(h, f, addr, need).busy == h.busy
  {
  }

  lemma WrappedBehind(h: Heap, f: nat, addr: Address, need: Size)
    requires Kept(h) && f in h.free && f <= addr <= f + h.free[f] && addr in h.busy
    requires addr + need >= WORD && SeemsToHold(h, f, addr, need)
    ensures addr == f + h.free[f] && AddBusy(Carve(h, f, addr, need), addr, need, Wrapped(addr + need)) == h
  {
    if addr < f + h.free[f] { InsideIsBlock(h, f, addr); }
    CarveBehind(h, f, addr, need);
    assert addr <= h.endAddr;
  }

  /** Placed allocation, too, keeps the invariant unless the size rounds to 0 or the end wraps around. Then it does so
      only if nothing is free, or if the place is a busy block right behind a free one. */
  lemma AllocateAtKeptExactly(h: Heap, addr: Address, size: Size)
    requires Kept(h)
    ensures Kept(AllocateAt(h, addr, size).0) <==>
      || (RoundUp(size) > 0 && !WrapsInto(h, addr, size))
      || h.free == map[]
      || (addr in h.busy && EndingAt(h.free, addr).Some?)
  {
    hide Kept, Carve, AddBusy, Allocate, RoundUp, AtMost;
    if RoundUp(size) > 0 {
      if WrapsInto(h, addr, size) { WrappedPlaced(h, addr, size); } else { AllocateAtKept(h, addr, size); }
    } else if AtMost(h.free.Keys, addr).Some? {
      EmptyPlaced(h, addr, size);
    } else {
      AllocateKept(h, size);
    }
  }

  /** There are such places: in a fresh region of 64 bytes at 32, nearly a whole word is answered at 64. */
  lemma WrappedPlaceExists()
    ensures var h, size := Init(32, 64), WORD - MIN_BLOCK;
      Kept(h) && WrapsInto(h, 64, size) && AllocateAt(h, 64, size).1 == 64 && !Kept(AllocateAt(h, 64, size).0)
  {
    var h, size: Size := Init(32, 64), WORD - MIN_BLOCK;
    InitKept(32, 64);
    RoundUpFits(size);
    assert RoundUp(size) == size;
    assert 32 in h.free.Keys;
    AllocateAtKeptExactly(h, 64, size);
    assert WrapsInto(h, 64, size);
  }

  // ---------- runs ----------

  datatype Event = Malloc(size: Size) | Place(addr: Address, size: Size) | Free(addr: Address)

  /** Callers ask for a positive size that rounding up does not wrap, for no place from which the end does, and free
      only what is busy. */
  predicate Enabled(h: Heap, e: Event) {
    match e
    case Malloc(size) => 0 < size <= WORD - MIN_BLOCK
    case Place(addr, size) => 0 < size <= WORD - MIN_BLOCK && !WrapsInto(h, addr, size)
    case Free(addr) => addr in h.busy
  }

  function Step(h: Heap, e: Event): Heap {
    if !Enabled(h, e) then h
    else match e
      case Malloc(size) => Allocate(h, size).0
      case Place(addr, size) => AllocateAt(h, addr, size).0
      case Free(addr) => Deallocate(h, addr).0
  }

  function Exec(lo: nat, size: nat, events: seq<Event>): Heap {
    if events == [] then Init(lo, size) else Step(Exec(lo, size, events[..|events| - 1]), events[|events| - 1])
  }

  lemma StepKept(h: Heap, e: Event)
    requires Kept(h)
    ensures Kept(Step(h, e))
  {
    hide Kept, RoundUp, Allocate, AllocateAt, Deallocate;
    if Enabled(h, e) {
      match e {
        case Malloc(size) => RoundUpFits(size); AllocateKept(h, size);
        case Place(addr, size) => RoundUpFits(size); AllocateAtKept(h, addr, size);
        case Free(addr) => DeallocateKept(h, addr);
      }
    }
  }

  /** In every run busy and free blocks fill the region, free blocks never touch, and both indexes hold the same. */
  lemma {:induction false} KeptAlways(lo: nat, size: nat, events: seq<Event>)
    requires 0 < lo && 0 < size && lo + size < HALF
    ensures Kept(Exec(lo, size, events))
  {
    if events == [] {
      InitKept(lo, size);
    } else {
      KeptAlways(lo, size, events[..|events| - 1]);
      StepKept(Exec(lo, size, events[..|events| - 1]), events[|events| - 1]);
    }
  }

  // ---------- alignment and the high-water mark ----------

  /** Every block starts at a multiple of the block size. */
  ghost predicate Aligned(h: Heap) {
    forall a | a in h.busy || a in h.free :: a % MIN_BLOCK == 0
  }

  lemma AllocateAligned(h: Heap, addr: Address, size: Size)
    requires Kept(h) && Aligned(h) && addr % MIN_BLOCK == 0 && 0 < RoundUp(size) && !WrapsInto(h, addr, size)
    ensures Aligned(AllocateAt(h, addr, size).0)
  {
    RoundUpFits(size);
    hide RoundUp, Kept, Carve, AddBusy, Allocate, AllocateAt, Carved;
    if AllocateAt(h, addr, size).1 != 0 {
      var f, recorded := AllocatedIn(h, addr, size);
      var a := AllocateAt(h, addr, size).1;
      CarveEffect(h, f, a, recorded);
      BusyIsNotFree(h);
      CarvedAt(h.free, f, a, RoundUp(recorded));
      AlignedSum(a, RoundUp(size));
    } else {
      FailedAllocate(h, addr, size);
    }
  }

  lemma AlignedSum(a: nat, b: nat)
    requires a % MIN_BLOCK == 0 && b % MIN_BLOCK == 0
    ensures (a + b) % MIN_BLOCK == 0
  {
  }

  /** An allocation that answers 0 changes nothing. */
  lemma FailedAllocate(h: Heap, addr: Address, size: Size)
    requires Kept(h) && 0 < RoundUp(size) && AllocateAt(h, addr, size).1 == 0
    ensures AllocateAt(h, addr, size).0 == h
  {
    hide RoundUp, Tiles, Blocks, Index, Carve, AddBusy;
    AllocateIs(h, size);
    var b := BestFit(h.bySize, RoundUp(size));
    if b.Some? { FreeInside(h, b.value.addr); }
    var f := AtMost(h.free.Keys, addr);
    if f.Some? { FreeInside(h, f.value); }
  }

  lemma DeallocateAligned(h: Heap, addr: nat)
    requires Kept(h) && Aligned(h) && addr in h.busy
    ensures Aligned(Deallocate(h, addr).0)
  {
    DeallocateIs(h, addr);
    hide RoundUp, Kept, Deallocate;
  }

  /** If all places asked for are multiples of the block size, every block of the run starts at one. */
  lemma {:induction false} AlignedAlways(lo: nat, size: nat, events: seq<Event>)
    requires 0 < lo && 0 < size && lo + size < HALF && lo % MIN_BLOCK == 0
    requires forall i | 0 <= i < |events| && events[i].Place? :: events[i].addr % MIN_BLOCK == 0
    ensures Aligned(Exec(lo, size, events))
  {
    if events != [] {
      var before, e := events[..|events| - 1], events[|events| - 1];
      var h := Exec(lo, size, before);
      AlignedAlways(lo, size, before);
      KeptAlways(lo, size, before);
      hide Kept, RoundUp, Allocate, AllocateAt, Deallocate, Aligned;
      if Enabled(h, e) {
        match e {
          case Malloc(n) => RoundUpFits(n); AllocateIsPlaced(h, n); NothingWrapsToZero(h, n); AllocateAligned(h, 0, n);
          case Place(addr, n) => RoundUpFits(n); AllocateAligned(h, addr, n);
          case Free(addr) => DeallocateAligned(h, addr);
        }
      }
    }
  }

  /** Some block that is busy now ends at x. */
  ghost predicate EndsAt(h: Heap, x: nat) {
    exists a :: a in h.busy && a + RoundUp(h.busy[a]) == x
  }

  /** The high-water mark moves only to the end of a block just allocated. */
  lemma MarkMoves(h: Heap, addr: Address, size: Size)
    requires Kept(h) && 0 < RoundUp(size) && !WrapsInto(h, addr, size)
    ensures var h' := AllocateAt(h, addr, size).0; h'.endAddr >= h.endAddr && (h'.endAddr == h.endAddr || EndsAt(h', h'.endAddr))
  {
    if AllocateAt(h, addr, size).1 != 0 {
      var f, recorded := AllocatedIn(h, addr, size);
      var (h', a) := AllocateAt(h, addr, size);
      CarveEffect(h, f, a, recorded);
      FreeInside(h, f);
      CarvedIndex(h, f, a, RoundUp(recorded));
      hide RoundUp, AllocateAt, Carve, Kept;
      assert a in h'.busy && h'.busy[a] == recorded;
    } else {
      FailedAllocate(h, addr, size);
    }
  }

  lemma {:induction false} MarkOnlyGrows(lo: nat, size: nat, events: seq<Event>, n: nat)
    requires 0 < lo && 0 < size && lo + size < HALF && n <= |events|
    ensures Exec(lo, size, events[..n]).endAddr <= Exec(lo, size, events).endAddr
  {
    if n < |events| {
      var before, e := events[..|events| - 1], events[|events| - 1];
      assert events[..n] == before[..n];
      MarkOnlyGrows(lo, size, before, n);
      MarkStep(lo, size, before, e);
    } else {
      assert events[..n] == events;
    }
  }

  lemma MarkStep(lo: nat, size: nat, before: seq<Event>, e: Event)
    requires 0 < lo && 0 < size && lo + size < HALF
    ensures var h := Exec(lo, size, before); var h' := Step(h, e);
      h'.endAddr >= h.endAddr && (h'.endAddr == h.endAddr || EndsAt(h', h'.endAddr))
  {
    var h := Exec(lo, size, before);
    KeptAlways(lo, size, before);
    hide Kept, RoundUp, Allocate, AllocateAt, Deallocate, EndsAt;
    if Enabled(h, e) {
      match e {
        case Malloc(n) => RoundUpFits(n); AllocateIsPlaced(h, n); NothingWrapsToZero(h, n); MarkMoves(h, 0, n);
        case Place(addr, n) => RoundUpFits(n); MarkMoves(h, addr, n);
        case Free(addr) => DeallocateIs(h, addr);
      }
    }
  }

  /** The high-water mark is the greatest end of any block that was ever busy, or the start of the region. */
  lemma {:induction false} MarkIsGreatestEnd(lo: nat, size: nat, events: seq<Event>)
    requires 0 < lo && 0 < size && lo + size < HALF
    ensures var mark := Exec(lo, size, events).endAddr;
      && (mark == lo || exists n :: 0 <= n <= |events| && EndsAt(Exec(lo, size, events[..n]), mark))
      && forall n, x: nat | 0 <= n <= |events| && EndsAt(Exec(lo, size, events[..n]), x) :: x <= mark
  {
    forall n, x: nat | 0 <= n <= |events| && EndsAt(Exec(lo, size, events[..n]), x) ensures x <= Exec(lo, size, events).endAddr {
      KeptAlways(lo, size, events[..n]);
      MarkOnlyGrows(lo, size, events, n);
    }
    MarkReached(lo, size, events);
  }

  lemma {:induction false} MarkReached(lo: nat, size: nat, events: seq<Event>)
    requires 0 < lo && 0 < size && lo + size < HALF
    ensures var mark := Exec(lo, size, events).endAddr;
      mark == lo || exists n :: 0 <= n <= |events| && EndsAt(Exec(lo, size, events[..n]), mark)
  {
    if events != [] {
      var before, e := events[..|events| - 1], events[|events| - 1];
      MarkReached(lo, size, before);
      MarkStep(lo, size, before, e);
      var mark, was := Exec(lo, size, events).endAddr, Exec(lo, size, before).endAddr;
      assert events[..|events|] == events;
      if mark == was && mark != lo {
        var n :| 0 <= n <= |before| && EndsAt(Exec(lo, size, before[..n]), was);
        assert events[..n] == before[..n];
      }
    }
  }
}
