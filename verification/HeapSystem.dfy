/**
 The allocator as the simulator holds it: one object whose three ordered sets are
 updated in place, step by step.
 */
module HeapSystem {
  import H = Heap
  import opened Heap
  import opened HeapRuns

  class HeapManager {
    const begAddr: nat
    ghost const limit: nat
    var endAddr: nat
    var busyByAddr: map<nat, Size>
    var freeByAddr: map<nat, nat>
    var freeBySize: set<Block>

    ghost function Now(): Heap
      reads this
    {
      Heap(begAddr, limit, busyByAddr, freeByAddr, freeBySize, endAddr)
    }

    constructor (base: nat, size: nat)
      requires 0 < base && base % MIN_BLOCK == 0 && 0 < size && size % MIN_BLOCK == 0 && base + size < HALF
      ensures Now() == Init(base, size) && Kept(Now()) && Aligned(Now())
    {
      begAddr, endAddr := base, base;
      limit := base + size;
      busyByAddr := map[];
      freeByAddr := map[base := size];
      freeBySize := {Block(base, size)};
      new;
      InitKept(base, size);
    }

    method InsertFree(addr: nat, size: nat)
      modifies this`freeByAddr, this`freeBySize
      ensures Now() == AddFree(old(Now()), addr, size)
    {
      freeBySize := freeBySize + {Block(addr, size)};
      if addr !in freeByAddr { freeByAddr := freeByAddr[addr := size]; }
    }

    method EraseFree(addr: nat, size: nat)
      modifies this`freeByAddr, this`freeBySize
      ensures Now() == DropFree(old(Now()), addr, size)
    {
      freeBySize := freeBySize - {Block(addr, size)};
      freeByAddr := freeByAddr - {addr};
    }

    method InsertBusy(addr: nat, size: Size, end: nat)
      modifies this`busyByAddr, this`endAddr
      ensures Now() == AddBusy(old(Now()), addr, size, end)
    {
      if addr !in busyByAddr { busyByAddr := busyByAddr[addr := size]; }
      if end > endAddr { endAddr := end; }
    }

    method Allocate(size: Size) returns (addr: nat)
      modifies this
      ensures (Now(), addr) == H.Allocate(old(Now()), size)
    {
      hide RoundUp, BestFit;
      var blockSize := RoundUp(size);
      var found := BestFit(freeBySize, blockSize);
      if found.None? { return 0; }
      addr := found.value.addr;
      var foundSize := found.value.size;
      EraseFree(addr, foundSize);
      InsertBusy(addr, size, addr + blockSize);
      if foundSize > blockSize { InsertFree(addr + blockSize, foundSize - blockSize); }
    }

    method AllocateAt(want: Address, size: Size) returns (addr: nat)
      modifies this
      ensures (Now(), addr) == H.AllocateAt(old(Now()), want, size)
    {
      hide RoundUp, AtMost, BestFit;
      var blockSize := RoundUp(size);
      var found := AtMost(freeByAddr.Keys, want);
      if found.None? {
        addr := Allocate(size);
        return;
      }
      var foundAddr := found.value;
      var foundSize := freeByAddr[foundAddr];
      if foundAddr + foundSize < Wrapped(want + blockSize) {
        addr := Allocate(size);
        return;
      }
      EraseFree(foundAddr, foundSize);
      if foundAddr < want {
        var frontChop := want - foundAddr;
        InsertFree(foundAddr, frontChop);
        foundSize := Wrapped(foundSize - frontChop);
        foundAddr := foundAddr + frontChop;
      }
      if foundSize > blockSize {
        var backChop := foundSize - blockSize;
        InsertFree(Wrapped(foundAddr + blockSize), backChop);
      }
      InsertBusy(want, blockSize, Wrapped(want + blockSize));
      return want;
    }

    method Deallocate(addr: nat) returns (oldBlockSize: nat)
      requires addr in busyByAddr
      modifies this
      ensures (Now(), oldBlockSize) == H.Deallocate(old(Now()), addr)
    {
      hide RoundUp, AtMost, Above;
      var blockAddr := addr;
      oldBlockSize := busyByAddr[addr];
      var blockSize: nat := RoundUp(oldBlockSize);
      busyByAddr := busyByAddr - {addr};
      var next := Above(freeByAddr.Keys, blockAddr);
      if next.Some? && blockAddr + blockSize == next.value {
        blockSize := blockSize + freeByAddr[next.value];
        EraseFree(next.value, freeByAddr[next.value]);
      }
      var prev := AtMost(freeByAddr.Keys, blockAddr);
      if prev.Some? && prev.value + freeByAddr[prev.value] == blockAddr {
        blockAddr := prev.value;
        blockSize := blockSize + freeByAddr[prev.value];
        EraseFree(prev.value, freeByAddr[prev.value]);
      }
      InsertFree(blockAddr, blockSize);
    }
  }
}
