/**
 What each heap operation answers and what it takes and gives back, address by address, in
 every case: placed allocation whose place is taken and moving a block to another size included.
 */
module HeapPlaces {
  import opened Heap
  import opened HeapRuns

  // ---------- free is what is not busy ----------

  ghost predicate BusyAt(h: Heap, x: nat) {
    exists a :: a in h.busy && a <= x < a + RoundUp(h.busy[a])
  }

  /** An address of the region is free exactly if no busy block holds it. So the busy blocks determine the free ones. */
  lemma FreeIsRest(h: Heap, x: nat)
    requires Kept(h)
    ensures FreeAt(h, x) <==> h.lo <= x < h.hi && !BusyAt(h, x)
  {
    hide RoundUp, Kept, Tiles, Blocks;
    var m := Blocks(h);
    BlocksAt(h);
    BusyIsNotFree(h);
    KeptTiles(h);
    hide Apart;
    if h.lo <= x < h.hi {
      TilesCover(m, h.lo, h.hi, x);
      var a :| a in m && a <= x < a + m[a] && forall b | b in m && b <= x < b + m[b] :: b == a;
      if a in h.free {
        forall b | b in h.busy ensures !(b <= x < b + RoundUp(h.busy[b])) { assert b in m && b != a; }
      } else {
        assert BusyAt(h, x);
        forall b | b in h.free ensures !(b <= x < b + h.free[b]) { assert b in m && b != a; }
      }
    } else {
      forall f | f in h.free ensures !(f <= x < f + h.free[f]) { FreeInside(h, f); }
    }
  }

  // ---------- plain allocation ----------

  /** Plain allocation takes the start of the shortest free block that is long enough, the lowest of several, and records
      the size as asked for; with no such block it answers 0 and changes nothing. */
  lemma AllocateTakes(h: Heap, size: Size)
    requires Kept(h) && 0 < RoundUp(size)
    ensures var (h', a) := Allocate(h, size); var need := RoundUp(size);
      && Kept(h') && h'.lo == h.lo && h'.hi == h.hi
      && (a == 0 ==> h' == h && forall f | f in h.free :: h.free[f] < need)
      && (a != 0 ==>
            && a in h.free && h.free[a] >= need && a !in h.busy && h'.busy == h.busy[a := size]
            && forall f | f in h.free && f != a && h.free[f] >= need :: h.free[a] < h.free[f] || (h.free[a] == h.free[f] && a < f))
  {
    var need := RoundUp(size);
    AllocateIs(h, size);
    AllocateKept(h, size);
    KeptIndex(h);
    BestFitFits(h, need);
    hide Kept, RoundUp, BestFit, Allocate, Carve;
    var b := BestFit(h.bySize, need);
    if b.Some? {
      FreeInside(h, b.value.addr);
      CarveEffect(h, b.value.addr, b.value.addr, size);
      CarvedIndexed(h, b.value.addr, b.value.addr, size);
    }
  }

  lemma CarvedIndexed(h: Heap, f: nat, a: nat, recorded: Size)
    requires Kept(h) && f in h.free && f <= a && a + RoundUp(recorded) <= f + h.free[f] && 0 < RoundUp(recorded)
    ensures var h' := AddBusy(Carve(h, f, a, RoundUp(recorded)), a, recorded, a + RoundUp(recorded)); h'.lo == h.lo && h'.hi == h.hi
  {
    hide RoundUp;
  }

  // ---------- placed allocation ----------

  /** Where the rounded range asked for is wholly free, placed allocation takes exactly that and records the rounded size. */
  lemma PlacedTakes(h: Heap, addr: Address, size: Size)
    requires Kept(h) && 0 < RoundUp(size) && FreeRun(h, addr, RoundUp(size)) && !WrapsInto(h, addr, size)
    ensures var (h', a) := AllocateAt(h, addr, size);
      && a == addr && addr !in h.busy && h'.busy == h.busy[addr := RoundUp(size)]
      && Kept(h') && h'.lo == h.lo && h'.hi == h.hi
  {
    var need := RoundUp(size);
    hide RoundUp, Carve, AddBusy, AtMost, Blocks, Tiles, Index;
    BusyIsNotFree(h);
    var f := RunInOneBlock(h, addr, need);
    HolderIs(h.free, addr, f);
    FreeInside(h, f);
    RoundUpAgain(size);
    CarvedKept(h, f, addr, need);
    CarveEffect(h, f, addr, need);
    CarvedIndexed(h, f, addr, need);
    hide Kept, FreeRun, Apart;
  }

  /** Where it is not, placed allocation is plain allocation. */
  lemma PlacedElsewhere(h: Heap, addr: Address, size: Size)
    requires Kept(h) && 0 < RoundUp(size) && !FreeRun(h, addr, RoundUp(size)) && !WrapsInto(h, addr, size)
    ensures AllocateAt(h, addr, size) == Allocate(h, size)
  {
    var need := RoundUp(size);
    hide RoundUp, Kept, Carve, AddBusy, AtMost, Allocate, FreeRun;
    var f := AtMost(h.free.Keys, addr);
    if f.Some? && SeemsToHold(h, f.value, addr, need) {
      FreeInside(h, f.value);
      BlockIsRun(h, f.value, addr, need);
    }
  }

  /** So placed allocation, too, answers 0 exactly when no free run of the rounded size exists anywhere. */
  lemma PlacedComplete(h: Heap, addr: Address, size: Size)
    requires Kept(h) && 0 < RoundUp(size) && !WrapsInto(h, addr, size)
    ensures AllocateAt(h, addr, size).1 == 0 <==> forall x: nat :: !FreeRun(h, x, RoundUp(size))
    ensures AllocateAt(h, addr, size).1 == 0 ==> AllocateAt(h, addr, size).0 == h
  {
    hide RoundUp, Kept, AllocateAt, Allocate, FreeRun, WrapsInto;
    AllocateComplete(h, size);
    AllocateTakes(h, size);
    if FreeRun(h, addr, RoundUp(size)) {
      PlacedTakes(h, addr, size);
      RunIsInside(h, addr, RoundUp(size));
    } else {
      PlacedElsewhere(h, addr, size);
    }
  }

  lemma RunIsInside(h: Heap, x: nat, n: nat)
    requires Kept(h) && 0 < n && FreeRun(h, x, n)
    ensures h.lo <= x && x + n <= h.hi && 0 < x
  {
    hide RoundUp, Tiles, Blocks;
    BusyIsNotFree(h);
    var f := RunInOneBlock(h, x, n);
    FreeInside(h, f);
  }

  // ---------- freeing ----------

  /** Freeing gives back the block and nothing else, and answers the size recorded for it. */
  lemma FreeGivesBack(h: Heap, addr: nat)
    requires Kept(h) && addr in h.busy
    ensures var (h', oldSize) := Deallocate(h, addr);
      && h'.busy == h.busy - {addr} && oldSize == h.busy[addr]
      && Kept(h') && h'.lo == h.lo && h'.hi == h.hi && h'.endAddr == h.endAddr
  {
    DeallocateIs(h, addr);
    DeallocateKept(h, addr);
    hide Kept;
  }

  /** Freed are the addresses that were free and those of the block. */
  lemma FreedAt(h: Heap, addr: nat, x: nat)
    requires Kept(h) && addr in h.busy
    ensures FreeAt(Deallocate(h, addr).0, x) <==> FreeAt(h, x) || addr <= x < addr + RoundUp(h.busy[addr])
  {
    hide RoundUp, Kept, Deallocate;
    var h' := Deallocate(h, addr).0;
    FreeGivesBack(h, addr);
    FreeIsRest(h, x);
    FreeIsRest(h', x);
    BusyInside(h, addr);
    if addr <= x < addr + RoundUp(h.busy[addr]) {
      OnlyHolder(h, addr, x);
      forall a | a in h'.busy ensures !(a <= x < a + RoundUp(h'.busy[a])) { assert a in h.busy; }
    } else if BusyAt(h, x) {
      var a :| a in h.busy && a <= x < a + RoundUp(h.busy[a]);
      assert a in h'.busy;
    } else {
      forall a | a in h'.busy ensures !(a <= x < a + RoundUp(h'.busy[a])) { assert a in h.busy; }
    }
  }

  lemma BusyInside(h: Heap, addr: nat)
    requires Kept(h) && addr in h.busy
    ensures h.lo <= addr && addr + RoundUp(h.busy[addr]) <= h.hi && 0 < RoundUp(h.busy[addr])
  {
    hide RoundUp;
    BlocksAt(h);
    hide Blocks;
  }

  lemma OnlyHolder(h: Heap, addr: nat, x: nat)
    requires Kept(h) && addr in h.busy && addr <= x < addr + RoundUp(h.busy[addr])
    ensures BusyAt(h, x) && forall a | a in h.busy && a <= x < a + RoundUp(h.busy[a]) :: a == addr
  {
    hide RoundUp;
    BlocksAt(h);
    hide Blocks;
  }

  // ---------- moving a block to another size ----------

  /** What the place of a block will be free for once the block is freed: as much as is free behind it. */
  lemma GrowsInto(h: Heap, addr: nat, n: nat)
    requires Kept(h) && addr in h.busy && n > 0
    ensures FreeRun(Deallocate(h, addr).0, addr, n) <==>
      forall y: nat | addr + RoundUp(h.busy[addr]) <= y < addr + n :: FreeAt(h, y)
  {
    hide RoundUp, Kept, Deallocate, FreeAt;
    var h1 := Deallocate(h, addr).0;
    forall y: nat ensures FreeAt(h1, y) <==> FreeAt(h, y) || addr <= y < addr + RoundUp(h.busy[addr]) { FreedAt(h, addr, y); }
  }

  /** A block freed and placed again with another size stays where it is exactly if everything behind it up to its new
      end is free. Otherwise it goes where plain allocation puts it, and it is lost only if, with its own place counted
      as free, no run of the new size exists anywhere. */
  lemma MovesOnlyIfBlocked(h: Heap, addr: Address, size: Size)
    requires Kept(h) && addr in h.busy && 0 < RoundUp(size)
    requires !WrapsInto(Deallocate(h, addr).0, addr, size)
    ensures var h1 := Deallocate(h, addr).0; var need := RoundUp(size); var a := AllocateAt(h1, addr, size).1;
      && (a == addr <==> forall y: nat | addr + RoundUp(h.busy[addr]) <= y < addr + need :: FreeAt(h, y))
      && (a != addr ==> AllocateAt(h1, addr, size) == Allocate(h1, size))
      && (a == 0 <==> forall x: nat :: !FreeRun(h1, x, need))
  {
    var h1 := Deallocate(h, addr).0;
    hide RoundUp, Kept, Deallocate, AllocateAt, Allocate, FreeRun, FreeAt, WrapsInto;
    FreeGivesBack(h, addr);
    BusyInside(h, addr);
    GrowsInto(h, addr, RoundUp(size));
    RegionPositive(h);
    AllocateAtExact(h1, addr, size);
    PlacedComplete(h1, addr, size);
    if !FreeRun(h1, addr, RoundUp(size)) { PlacedElsewhere(h1, addr, size); }
  }

  lemma RegionPositive(h: Heap)
    requires Kept(h)
    ensures 0 < h.lo && h.hi < HALF
  {
    hide Tiles, Apart, Index;
  }
}
