/**
 The heap allocator of a simulated process: busy blocks, and free blocks kept in two
 indexes, one ordered by address and one by size.
 */
module Heap {
  import opened Options

  const MIN_BLOCK: nat := 32

  /** Sizes are machine words: sums and differences of two wrap around here. Inside the region they cannot, and are
      written plainly there. */
  const WORD: nat := 0x1_0000_0000_0000_0000

  /** Addresses are signed words, and those of a region not negative. */
  const HALF: nat := 0x8000_0000_0000_0000

  type Size = n: nat | n < WORD
  type Address = n: nat | n < HALF

  /** The word left of a sum or a difference of two words. */
  function Wrapped(x: int): (r: int)
    ensures x + WORD >= 0 ==> r >= 0
    ensures x < 2 * WORD ==> r < WORD
  {
    if x < 0 then x + WORD else if x >= WORD then x - WORD else x
  }

  function RoundUp(size: Size): (r: Size) {
    Wrapped(size + MIN_BLOCK - 1) / MIN_BLOCK * MIN_BLOCK
  }

  /** Rounding up gives the least multiple of the block size that holds the request, except that it gives 0 for
      requests in the last block below the end of the word. */
  lemma RoundUpFits(size: Size)
    ensures RoundUp(size) % 32 == 0 && MIN_BLOCK == 32
    ensures size <= WORD - MIN_BLOCK ==> size <= RoundUp(size) < size + MIN_BLOCK
    ensures RoundUp(size) == 0 <==> size == 0 || size > WORD - MIN_BLOCK
  {
  }

  /** A size that is a multiple already stays, and a smaller request never rounds to more. */
  lemma RoundUpMonotone(x: Size, y: Size)
    requires x <= y <= WORD - MIN_BLOCK
    ensures RoundUp(x) <= RoundUp(y) && RoundUp(RoundUp(y)) == RoundUp(y)
  {
    RoundUpFits(y);
  }

  datatype Block = Block(addr: nat, size: nat) {
    /** The order of the index by size. */
    predicate Less(o: Block) { size < o.size || (size == o.size && addr < o.addr) }
  }

  /** The region [lo, hi), its busy and free blocks by address, the free blocks by size, and the end of the part
      ever used. A busy block's size is recorded as asked for by plain allocation, rounded up by placed allocation. */
  datatype Heap = Heap(lo: nat, hi: nat, busy: map<nat, Size>, free: map<nat, nat>, bySize: set<Block>, endAddr: nat)

  function Init(lo: nat, size: nat): Heap {
    Heap(lo, lo + size, map[], map[lo := size], {Block(lo, size)}, lo)
  }

  // ---------- searching an ordered set ----------

  lemma {:induction false} LeastOf(s: set<nat>) returns (k: nat)
    requires s != {}
    ensures k in s && forall x | x in s :: k <= x
  {
    k :| k in s;
    if s != {k} {
      assert forall x | x in s :: x == k || x in s - {k};
      var j := LeastOf(s - {k});
      if j < k { k := j; }
    }
  }

  lemma {:induction false} GreatestOf(s: set<nat>) returns (k: nat)
    requires s != {}
    ensures k in s && forall x | x in s :: x <= k
  {
    k :| k in s;
    if s != {k} {
      assert forall x | x in s :: x == k || x in s - {k};
      var j := GreatestOf(s - {k});
      if k < j { k := j; }
    }
  }

  lemma {:induction false} SmallestOf(s: set<Block>) returns (b: Block)
    requires s != {}
    ensures b in s && forall c | c in s :: !c.Less(b)
  {
    b :| b in s;
    if s != {b} {
      assert forall c | c in s :: c == b || c in s - {b};
      var d := SmallestOf(s - {b});
      if d.Less(b) { b := d; }
    }
  }

  /** The least address above a. */
  function Above(s: set<nat>, a: nat): (r: Option<nat>)
    ensures r.None? ==> forall x | x in s :: x <= a
    ensures r.Some? ==> r.value in s && r.value > a && forall x | x in s && x > a :: r.value <= x
  {
    var above := set x | x in s && x > a;
    assert forall x | x in s && x > a :: x in above;
    if above == {} then None
    else
      assert exists k :: k in above && forall x | x in above :: k <= x by { var k := LeastOf(above); }
      var k :| k in above && forall x | x in above :: k <= x;
      Some(k)
  }

  /** The greatest address not above a: the entry before the least one above it. */
  function AtMost(s: set<nat>, a: nat): (r: Option<nat>)
    ensures r.None? ==> forall x | x in s :: x > a
    ensures r.Some? ==> r.value in s && r.value <= a && forall x | x in s && x <= a :: x <= r.value
  {
    var below := set x | x in s && x <= a;
    assert forall x | x in s && x <= a :: x in below;
    if below == {} then None
    else
      assert exists k :: k in below && forall x | x in below :: x <= k by { var k := GreatestOf(below); }
      var k :| k in below && forall x | x in below :: x <= k;
      Some(k)
  }

  /** The smallest block of at least this size, the lowest one of several. */
  function BestFit(s: set<Block>, size: nat): (r: Option<Block>)
    ensures r.None? ==> forall b | b in s :: b.size < size
    ensures r.Some? ==> r.value in s && r.value.size >= size && forall b | b in s && b.size >= size :: !b.Less(r.value)
  {
    var fits := set b | b in s && b.size >= size;
    assert forall b | b in s && b.size >= size :: b in fits;
    if fits == {} then None
    else
      assert exists b :: b in fits && forall c | c in fits :: !c.Less(b) by { var b := SmallestOf(fits); }
      var b :| b in fits && forall c | c in fits :: !c.Less(b);
      Some(b)
  }

  // ---------- the operations ----------

  /** Inserting into a set ordered by address does nothing if the address is there. */
  function Insert<T>(m: map<nat, T>, a: nat, v: T): map<nat, T> {
    if a in m then m else m[a := v]
  }

  function AddFree(h: Heap, a: nat, size: nat): Heap {
    h.(free := Insert(h.free, a, size), bySize := h.bySize + {Block(a, size)})
  }

  function DropFree(h: Heap, a: nat, size: nat): Heap {
    h.(free := h.free - {a}, bySize := h.bySize - {Block(a, size)})
  }

  function AddBusy(h: Heap, a: nat, size: Size, end: nat): Heap {
    h.(busy := Insert(h.busy, a, size), endAddr := if end > h.endAddr then end else h.endAddr)
  }

  /** Best fit; 0 when nothing fits. */
  function Allocate(h: Heap, size: Size): (Heap, nat) {
    var need := RoundUp(size);
    match BestFit(h.bySize, need)
    case None => (h, 0)
    case Some(b) =>
      var h1 := AddBusy(DropFree(h, b.addr, b.size), b.addr, size, b.addr + need);
      (if b.size > need then AddFree(h1, b.addr + need, b.size - need) else h1, b.addr)
  }

  /** Takes [addr, addr + need) out of the free block at f, whose front and back parts stay free. */
  function Carve(h: Heap, f: nat, addr: nat, need: Size): Heap
    requires f in h.free && f <= addr
  {
    var h1 := DropFree(h, f, h.free[f]);
    var h2 := if f < addr then AddFree(h1, f, addr - f) else h1;
    var rest := if f < addr then Wrapped(h.free[f] - (addr - f)) else h.free[f];
    if rest > need then AddFree(h2, Wrapped(addr + need), rest - need) else h2
  }

  /** The free block at f seems long enough: the end of what is asked for is compared after it has wrapped around. */
  predicate SeemsToHold(h: Heap, f: nat, addr: Address, need: Size)
    requires f in h.free
  {
    f + h.free[f] >= Wrapped(addr + need)
  }

  /** What is asked for runs past the last word, and what its end wraps to lies in the last free block not above. */
  predicate WrapsInto(h: Heap, addr: Address, size: Size) {
    var f := AtMost(h.free.Keys, addr);
    f.Some? && addr + RoundUp(size) >= WORD && SeemsToHold(h, f.value, addr, RoundUp(size))
  }

  /** At the address asked for, if the free block there seems long enough; anywhere, otherwise. */
  function AllocateAt(h: Heap, addr: Address, size: Size): (Heap, nat) {
    var need := RoundUp(size);
    match AtMost(h.free.Keys, addr)
    case None => Allocate(h, size)
    case Some(f) =>
      if SeemsToHold(h, f, addr, need) then (AddBusy(Carve(h, f, addr, need), addr, need, Wrapped(addr + need)), addr)
      else Allocate(h, size)
  }

  /** Takes the free block that follows [a, a + size) directly into it. */
  function MergeNext(h: Heap, a: nat, size: nat): (r: (Heap, nat)) {
    match Above(h.free.Keys, a)
    case None => (h, size)
    case Some(b) => if a + size == b then (DropFree(h, b, h.free[b]), size + h.free[b]) else (h, size)
  }

  /** Adds [a, a + size), joined to the free block that ends at a if there is one. */
  function MergePrev(h: Heap, a: nat, size: nat): Heap {
    match AtMost(h.free.Keys, a)
    case None => AddFree(h, a, size)
    case Some(p) =>
      if p + h.free[p] == a then AddFree(DropFree(h, p, h.free[p]), p, h.free[p] + size) else AddFree(h, a, size)
  }

  /** Frees a busy block; returns the size recorded for it. */
  function Deallocate(h: Heap, addr: nat): (Heap, nat)
    requires addr in h.busy
  {
    var h1 := h.(busy := h.busy - {addr});
    var (h2, size) := MergeNext(h1, addr, RoundUp(h.busy[addr]));
    (MergePrev(h2, addr, size), h.busy[addr])
  }

  // ---------- what always holds ----------

  /** The blocks m (start to length) fill [lo, hi): none is empty, none overlap, and each ends where the next starts. */
  ghost predicate Tiles(m: map<nat, nat>, lo: nat, hi: nat) {
    && lo in m
    && (forall a | a in m :: lo <= a && m[a] > 0 && a + m[a] <= hi)
    && (forall a, b | a in m && b in m && a < b :: a + m[a] <= b)
    && (forall a | a in m && a + m[a] != hi :: a + m[a] in m)
  }

  function Blocks(h: Heap): map<nat, nat> {
    map a | a in h.busy.Keys + h.free.Keys :: if a in h.free then h.free[a] else RoundUp(h.busy[a])
  }

  function Index(free: map<nat, nat>): set<Block> {
    set a | a in free :: Block(a, free[a])
  }

  /** Free blocks neither overlap nor touch. */
  ghost predicate Apart(free: map<nat, nat>) {
    forall a, b | a in free && b in free && a < b :: a + free[a] < b
  }

  ghost predicate Kept(h: Heap) {
    && 0 < h.lo && h.hi < HALF
    && Tiles(Blocks(h), h.lo, h.hi)
    && h.busy.Keys !! h.free.Keys
    && Apart(h.free)
    && h.bySize == Index(h.free)
    && h.lo <= h.endAddr <= h.hi
    && forall a | a in h.busy :: a + RoundUp(h.busy[a]) <= h.endAddr
  }

  /** Filling means that every address lies in exactly one block. */
  lemma TilesCover(m: map<nat, nat>, lo: nat, hi: nat, x: nat)
    requires Tiles(m, lo, hi) && lo <= x < hi
    ensures exists a :: a in m && a <= x < a + m[a] && forall b | b in m && b <= x < b + m[b] :: b == a
  {
    assert lo in m.Keys;
    var a: nat := AtMost(m.Keys, x).value;
    var end: nat := a + m[a];
    assert a <= x < end by { assert end in m ==> end in m.Keys; }
    hide AtMost;
    assert a in m && a <= x < a + m[a];
    forall b | b in m && b <= x < b + m[b] ensures b == a { assert b in m.Keys; }
  }

  /** The blocks with the one at a split after k. */
  function Split(m: map<nat, nat>, a: nat, k: nat): map<nat, nat>
    requires a in m && 0 < k < m[a]
  {
    m[a := k][a + k := m[a] - k]
  }

  lemma SplitApart(m: map<nat, nat>, a: nat, k: nat, x: nat, y: nat)
    requires forall b, c | b in m && c in m && b < c :: b + m[b] <= c
    requires a in m && 0 < k < m[a] && x in Split(m, a, k) && y in Split(m, a, k) && x < y
    ensures a + k !in m && x + Split(m, a, k)[x] <= y
  {
  }

  lemma SplitEnds(m: map<nat, nat>, hi: nat, a: nat, k: nat, x: nat)
    requires forall b | b in m && b + m[b] != hi :: b + m[b] in m
    requires a in m && 0 < k < m[a] && x in Split(m, a, k) && x + Split(m, a, k)[x] != hi
    ensures x + Split(m, a, k)[x] in Split(m, a, k)
  {
  }

  lemma SplitInside(m: map<nat, nat>, lo: nat, hi: nat, a: nat, k: nat, x: nat)
    requires a in m && 0 < k < m[a] && forall b | b in m :: lo <= b && m[b] > 0 && b + m[b] <= hi
    requires x in Split(m, a, k)
    ensures lo <= x && Split(m, a, k)[x] > 0 && x + Split(m, a, k)[x] <= hi
  {
  }

  lemma SplitTiles(m: map<nat, nat>, lo: nat, hi: nat, a: nat, k: nat)
    requires Tiles(m, lo, hi) && a in m && 0 < k < m[a]
    ensures Tiles(m[a := k][a + k := m[a] - k], lo, hi) && a + k !in m
  {
    var m' := Split(m, a, k);
    assert lo in m';
    assert m' == m[a := k][a + k := m[a] - k];
    hide Split, Tiles;
    SplitApart(m, a, k, a, a + k);
    forall x | x in m' ensures lo <= x && m'[x] > 0 && x + m'[x] <= hi { SplitInside(m, lo, hi, a, k, x); }
    forall x, y | x in m' && y in m' && x < y ensures x + m'[x] <= y { SplitApart(m, a, k, x, y); }
    forall x | x in m' && x + m'[x] != hi ensures x + m'[x] in m' { SplitEnds(m, hi, a, k, x); }
    TilesOf(m', lo, hi);
  }

  lemma TilesOf(m: map<nat, nat>, lo: nat, hi: nat)
    requires lo in m && forall a | a in m :: lo <= a && m[a] > 0 && a + m[a] <= hi
    requires forall a, b | a in m && b in m && a < b :: a + m[a] <= b
    requires forall a | a in m && a + m[a] != hi :: a + m[a] in m
    ensures Tiles(m, lo, hi)
  {
  }

  lemma MergeTiles(m: map<nat, nat>, lo: nat, hi: nat, a: nat, b: nat)
    requires Tiles(m, lo, hi) && a in m && b in m && b == a + m[a]
    ensures Tiles((m - {b})[a := m[a] + m[b]], lo, hi)
  {
  }

  // ---------- each operation keeps it ----------

  lemma DropIndex(free: map<nat, nat>, a: nat)
    requires a in free
    ensures Index(free - {a}) == Index(free) - {Block(a, free[a])}
  {
    forall b | b in Index(free) && b != Block(a, free[a]) ensures b in Index(free - {a}) { assert b.addr in free - {a}; }
  }

  lemma AddIndex(free: map<nat, nat>, a: nat, size: nat)
    requires a !in free
    ensures Index(Insert(free, a, size)) == Index(free) + {Block(a, size)}
  {
    var free' := Insert(free, a, size);
    forall b | b in Index(free) + {Block(a, size)} ensures b in Index(free') { assert b.addr in free'; }
  }

  lemma InitKept(lo: nat, size: nat)
    requires 0 < lo && 0 < size && lo + size < HALF
    ensures Kept(Init(lo, size))
  {
    var h := Init(lo, size);
    assert Blocks(h) == map[lo := size];
    AddIndex(map[], lo, size);
    assert h.free == Insert(map[], lo, size);
  }

  /** What is left of the free blocks: the front and the back part of the one at f. */
  function Carved(free: map<nat, nat>, f: nat, addr: nat, need: nat): map<nat, nat>
    requires f in free && f <= addr && addr + need <= f + free[f]
  {
    var free1 := free - {f};
    var free2 := if f < addr then Insert(free1, f, addr - f) else free1;
    if addr + need < f + free[f] then Insert(free2, addr + need, f + free[f] - (addr + need)) else free2
  }

  lemma CarvedAt(free: map<nat, nat>, f: nat, addr: nat, need: nat)
    requires Apart(free) && f in free && f <= addr && addr + need <= f + free[f] && 0 < need
    ensures var free' := Carved(free, f, addr, need); var end := f + free[f]; var back: nat := addr + need;
      && (forall a :: a in free' <==> (a in free && a != f) || (a == f && f < addr) || (a == back && back < end))
      && (forall a | a in free && a != f :: free'[a] == free[a])
      && (f < addr ==> free'[f] == addr - f) && (back < end ==> free'[back] == end - back)
  {
    var back: nat := addr + need;
    assert back < f + free[f] ==> back !in free;
  }

  lemma CarvedApart(free: map<nat, nat>, f: nat, addr: nat, need: nat)
    requires Apart(free) && f in free && f <= addr && addr + need <= f + free[f] && 0 < need
    ensures Apart(Carved(free, f, addr, need)) && addr !in Carved(free, f, addr, need)
  {
    CarvedAt(free, f, addr, need);
    hide Carved;
    var free', end := Carved(free, f, addr, need), f + free[f];
    var back: nat := addr + need;
    forall a, b | a in free' && b in free' && a < b ensures a + free'[a] < b {
      assert a in free && b in free ==> a + free[a] < b;
      assert a != f && a in free ==> a + free[a] < f || end < a;
      assert b != f && b in free ==> b + free[b] < f || end < b;
    }
  }

  lemma CarvedIndex(h: Heap, f: nat, addr: nat, need: Size)
    requires Apart(h.free) && h.bySize == Index(h.free)
    requires f in h.free && f <= addr && addr + need <= f + h.free[f] < HALF && 0 < need
    ensures var h' := Carve(h, f, addr, need);
      h'.free == Carved(h.free, f, addr, need) && h'.bySize == Index(h'.free) && h'.busy == h.busy && h'.endAddr == h.endAddr
      && h'.lo == h.lo && h'.hi == h.hi
  {
    hide Index;
    var end: nat := f + h.free[f];
    var back: nat := addr + need;
    var free1 := h.free - {f};
    var free2 := if f < addr then Insert(free1, f, addr - f) else free1;
    assert back < end ==> back !in h.free && back !in free2;
    hide Apart;
    DropIndex(h.free, f);
    if f < addr { AddIndex(free1, f, addr - f); }
    if back < end { AddIndex(free2, back, end - back); }
  }

  /** Cutting one block into up to three. */
  function Cut(m: map<nat, nat>, f: nat, addr: nat, need: nat): map<nat, nat>
    requires f in m && f <= addr && addr + need <= f + m[f]
  {
    var end := f + m[f];
    var m1 := if f < addr then m[f := addr - f][addr := end - addr] else m;
    if addr + need < end then m1[addr := need][addr + need := end - (addr + need)] else m1
  }

  lemma CutTiles(m: map<nat, nat>, lo: nat, hi: nat, f: nat, addr: nat, need: nat)
    requires Tiles(m, lo, hi) && f in m && f <= addr && addr + need <= f + m[f] && 0 < need
    ensures Tiles(Cut(m, f, addr, need), lo, hi)
  {
    hide Tiles;
    if f < addr { SplitTiles(m, lo, hi, f, addr - f); }
    var m1 := if f < addr then m[f := addr - f][addr := f + m[f] - addr] else m;
    if addr + need < f + m[f] { SplitTiles(m1, lo, hi, addr, need); }
  }

  lemma InsideIsBlock(h: Heap, f: nat, x: nat)
    requires Kept(h) && f in h.free && f <= x < f + h.free[f]
    ensures x in Blocks(h) ==> x == f
    ensures x !in h.busy
  {
    assert Blocks(h)[f] == h.free[f];
  }

  lemma CutAt(m: map<nat, nat>, f: nat, addr: nat, need: nat)
    requires f in m && f <= addr && addr + need <= f + m[f] && 0 < need
    ensures var m' := Cut(m, f, addr, need); var end := f + m[f]; var back: nat := addr + need;
      && (forall x :: x in m' <==> x in m || x == addr || (x == back && back < end))
      && (forall x | x in m && x != f && x != addr && (x != back || back == end) :: m'[x] == m[x])
      && m'[addr] == need && (f < addr ==> m'[f] == addr - f) && (back < end ==> m'[back] == end - back)
  {
  }

  lemma BlocksAt(h: Heap)
    ensures forall x :: x in Blocks(h) <==> x in h.busy || x in h.free
    ensures forall x | x in h.free :: Blocks(h)[x] == h.free[x]
    ensures forall x | x in h.busy && x !in h.free :: Blocks(h)[x] == RoundUp(h.busy[x])
  {
  }

  /** The parts of the invariant, for use with its definition hidden. */
  lemma BusyIsNotFree(h: Heap)
    requires Kept(h)
    ensures Apart(h.free) && forall x | x in h.busy :: x !in h.free
  {
  }

  lemma KeptTiles(h: Heap)
    requires Kept(h)
    ensures Tiles(Blocks(h), h.lo, h.hi)
  {
  }

  lemma FreeInside(h: Heap, f: nat)
    requires Kept(h) && f in h.free
    ensures h.lo <= f && 0 < h.free[f] && f + h.free[f] <= h.hi
  {
    assert Blocks(h)[f] == h.free[f];
  }

  lemma CarvedBlocksAt(h: Heap, f: nat, addr: nat, size: Size, x: nat)
    requires Kept(h) && f in h.free && f <= addr && addr + RoundUp(size) <= f + h.free[f] && 0 < RoundUp(size)
    ensures addr !in h.busy && Blocks(h)[f] == h.free[f]
    ensures var m' := Blocks(h.(free := Carved(h.free, f, addr, RoundUp(size)), busy := h.busy[addr := size]));
      var c := Cut(Blocks(h), f, addr, RoundUp(size));
      (x in m' <==> x in c) && (x in m' ==> m'[x] == c[x])
  {
    hide *;
    var need := RoundUp(size);
    var back: nat := addr + need;
    var h' := h.(free := Carved(h.free, f, addr, need), busy := h.busy[addr := size]);
    BusyIsNotFree(h);
    InsideIsBlock(h, f, addr);
    if back < f + h.free[f] { InsideIsBlock(h, f, back); }
    CarvedAt(h.free, f, addr, need);
    CarvedApart(h.free, f, addr, need);
    BlocksAt(h);
    BlocksAt(h');
    CutAt(Blocks(h), f, addr, need);
  }

  lemma CarvedBlocks(h: Heap, f: nat, addr: nat, size: Size)
    requires Kept(h) && f in h.free && f <= addr && addr + RoundUp(size) <= f + h.free[f] && 0 < RoundUp(size)
    ensures addr !in h.busy && Blocks(h)[f] == h.free[f]
    ensures Blocks(h.(free := Carved(h.free, f, addr, RoundUp(size)), busy := h.busy[addr := size]))
         == Cut(Blocks(h), f, addr, RoundUp(size))
  {
    hide *;
    BlocksAt(h);
    CarvedBlocksAt(h, f, addr, size, f);
    var m', c := Blocks(h.(free := Carved(h.free, f, addr, RoundUp(size)), busy := h.busy[addr := size])), Cut(Blocks(h), f, addr, RoundUp(size));
    forall x | x in m' || x in c ensures x in m' && x in c && m'[x] == c[x] { CarvedBlocksAt(h, f, addr, size, x); }
    assert m' == c;
  }

  lemma CarvedKept(h: Heap, f: nat, addr: nat, size: Size)
    requires Kept(h) && f in h.free && f <= addr && addr + RoundUp(size) <= f + h.free[f] && 0 < RoundUp(size)
    ensures Kept(AddBusy(Carve(h, f, addr, RoundUp(size)), addr, size, addr + RoundUp(size)))
  {
    hide Carved, Tiles, Apart, RoundUp, Carve, Index, Cut, Blocks;
    var need := RoundUp(size);
    FreeInside(h, f);
    CarvedIndex(h, f, addr, need);
    CarvedApart(h.free, f, addr, need);
    CarvedBlocks(h, f, addr, size);
    BlocksAt(h);
    CutTiles(Blocks(h), h.lo, h.hi, f, addr, need);
    CarvedAt(h.free, f, addr, need);
    InsideIsBlock(h, f, addr);
    if addr + need < f + h.free[f] { InsideIsBlock(h, f, addr + need); }
    var h' := AddBusy(Carve(h, f, addr, need), addr, size, addr + need);
    SameBlocks(h', h.(free := Carved(h.free, f, addr, need), busy := h.busy[addr := size]));
  }

  lemma SameBlocks(h: Heap, h': Heap)
    requires h.free == h'.free && h.busy == h'.busy
    ensures Blocks(h) == Blocks(h')
  {
  }

  // ---------- freeing a block ----------

  /** The free blocks after [a, a + need) has joined them. */
  function Freed(free: map<nat, nat>, a: nat, need: nat): map<nat, nat> {
    var (f1, size) := JoinNext(free, a, need);
    JoinPrev(f1, a, size)
  }

  function JoinNext(free: map<nat, nat>, a: nat, need: nat): (map<nat, nat>, nat) {
    var n: nat := a + need;
    if n in free then (free - {n}, need + free[n]) else (free, need)
  }

  function JoinPrev(free: map<nat, nat>, a: nat, size: nat): map<nat, nat> {
    match AtMost(free.Keys, a)
    case None => free[a := size]
    case Some(p) => if p + free[p] == a then (free - {p})[p := free[p] + size] else free[a := size]
  }

  /** No free block overlaps [a, a + size). */
  ghost predicate Clear(free: map<nat, nat>, a: nat, size: nat) {
    forall x | x in free :: x + free[x] <= a || a + size <= x
  }

  lemma BusyIsClear(h: Heap, addr: nat)
    requires Kept(h) && addr in h.busy
    ensures 0 < RoundUp(h.busy[addr]) && Clear(h.free, addr, RoundUp(h.busy[addr])) && addr !in h.free
  {
    hide RoundUp;
    BlocksAt(h);
    hide Blocks;
  }

  lemma JoinNextAt(free: map<nat, nat>, a: nat, need: nat)
    requires Apart(free) && Clear(free, a, need) && 0 < need && a !in free
    ensures var (f1, size) := JoinNext(free, a, need);
      && Apart(f1) && (forall x | x in f1 :: x + f1[x] <= a || a + size < x) && need <= size && a !in f1
  {
  }

  lemma JoinPrevAt(free: map<nat, nat>, a: nat, size: nat)
    requires Apart(free) && (forall x | x in free :: x + free[x] <= a || a + size < x) && 0 < size
    ensures Apart(JoinPrev(free, a, size))
  {
    var free' := JoinPrev(free, a, size);
    hide AtMost;
    var p := AtMost(free.Keys, a);
    if p.Some? && p.value + free[p.value] == a {
      forall x, y | x in free' && y in free' && x < y ensures x + free'[x] < y {
        assert y != p.value && x != p.value ==> x + free[x] < y;
        assert y == p.value ==> x + free[x] < y;
        assert x == p.value ==> a + size < y;
      }
    } else {
      forall x, y | x in free' && y in free' && x < y ensures x + free'[x] < y {
        assert y == a && p.Some? ==> x in free.Keys;
      }
    }
  }

  lemma MergeNextIs(h: Heap, a: nat, need: nat)
    requires Apart(h.free) && Clear(h.free, a, need) && 0 < need && a !in h.free && h.bySize == Index(h.free)
    ensures var (h', size) := MergeNext(h, a, need);
      && (h'.free, size) == JoinNext(h.free, a, need) && h' == h.(free := h'.free, bySize := Index(h'.free))
  {
    hide Index, Above;
    var n: nat := a + need;
    if n in h.free {
      assert n in h.free.Keys;
      assert Above(h.free.Keys, a) == Some(n);
      DropIndex(h.free, n);
    } else {
      assert h == h.(free := h.free, bySize := Index(h.free));
    }
  }

  lemma MergePrevIs(h: Heap, a: nat, size: nat)
    requires Apart(h.free) && a !in h.free && h.bySize == Index(h.free)
    ensures MergePrev(h, a, size) == h.(free := JoinPrev(h.free, a, size), bySize := Index(JoinPrev(h.free, a, size)))
  {
    hide Index, AtMost;
    AddIndex(h.free, a, size);
    var p := AtMost(h.free.Keys, a);
    if p.Some? {
      DropIndex(h.free, p.value);
      AddIndex(h.free - {p.value}, p.value, h.free[p.value] + size);
    }
  }

  /** Deallocation is the joining of the freed block to its free neighbours, in both indexes. */
  lemma DeallocateIs(h: Heap, addr: nat)
    requires Kept(h) && addr in h.busy
    ensures var free' := Freed(h.free, addr, RoundUp(h.busy[addr]));
      Deallocate(h, addr).0 == h.(busy := h.busy - {addr}, free := free', bySize := Index(free'))
  {
    hide RoundUp, Tiles, Blocks, Index, MergeNext, MergePrev, JoinNext, JoinPrev, Clear, Apart;
    var need := RoundUp(h.busy[addr]);
    BusyIsClear(h, addr);
    var h1 := h.(busy := h.busy - {addr});
    MergeNextIs(h1, addr, need);
    JoinNextAt(h.free, addr, need);
    var (h2, size) := MergeNext(h1, addr, need);
    MergePrevIs(h2, addr, size);
  }

  /** The free block that ends at a, if there is one. */
  function EndingAt(free: map<nat, nat>, a: nat): (p: Option<nat>)
    ensures p.Some? ==> p.value in free && p.value + free[p.value] == a
  {
    var p := AtMost(free.Keys, a);
    if p.Some? && p.value + free[p.value] == a then p else None
  }

  /** The blocks m once the one at addr has joined its free neighbours. */
  function JoinedBlocks(m: map<nat, nat>, free: map<nat, nat>, addr: nat, need: nat): map<nat, nat> {
    var n: nat := addr + need;
    var (f1, size) := JoinNext(free, addr, need);
    var m1 := if n in free then (m - {n})[addr := size] else m;
    var p := EndingAt(f1, addr);
    if p.Some? then (m1 - {addr})[p.value := f1[p.value] + size] else m1
  }

  lemma JoinedTiles(m: map<nat, nat>, lo: nat, hi: nat, free: map<nat, nat>, addr: nat, need: nat)
    requires Tiles(m, lo, hi) && addr in m && addr !in free && m[addr] == need && 0 < need
    requires forall x | x in free :: x in m && m[x] == free[x]
    ensures Tiles(JoinedBlocks(m, free, addr, need), lo, hi)
  {
    hide Tiles, EndingAt;
    var n: nat := addr + need;
    var (f1, size) := JoinNext(free, addr, need);
    var m1 := if n in free then (m - {n})[addr := size] else m;
    if n in free { MergeTiles(m, lo, hi, addr, n); }
    var p := EndingAt(f1, addr);
    if p.Some? {
      assert p.value in m1 && m1[p.value] == f1[p.value];
      MergeTiles(m1, lo, hi, p.value, addr);
    }
  }

  lemma JoinedAt(m: map<nat, nat>, free: map<nat, nat>, addr: nat, need: nat)
    requires addr in m && addr !in free && m[addr] == need && 0 < need
    requires forall x | x in free :: x in m && m[x] == free[x]
    ensures var m', free' := JoinedBlocks(m, free, addr, need), Freed(free, addr, need);
      && (forall x :: x in m' <==> x in free' || (x in m && x !in free && x != addr))
      && (forall x | x in free' :: m'[x] == free'[x])
      && (forall x | x in m && x !in free && x != addr :: x !in free' && m'[x] == m[x])
  {
    hide AtMost;
    var (f1, size) := JoinNext(free, addr, need);
    assert JoinPrev(f1, addr, size) == if EndingAt(f1, addr).Some?
      then (f1 - {EndingAt(f1, addr).value})[EndingAt(f1, addr).value := f1[EndingAt(f1, addr).value] + size]
      else f1[addr := size];
    hide EndingAt, JoinPrev;
  }

  /** Freeing leaves the freed extent to the free blocks and keeps the region filled. */
  lemma FreedBlocks(h: Heap, addr: nat)
    requires Kept(h) && addr in h.busy
    ensures var free' := Freed(h.free, addr, RoundUp(h.busy[addr])); var h' := h.(busy := h.busy - {addr}, free := free');
      Tiles(Blocks(h'), h.lo, h.hi) && h'.busy.Keys !! free'.Keys
  {
    hide *;
    var need, m := RoundUp(h.busy[addr]), Blocks(h);
    BusyIsClear(h, addr);
    BusyIsNotFree(h);
    KeptTiles(h);
    BlocksAt(h);
    JoinedTiles(m, h.lo, h.hi, h.free, addr, need);
    JoinedAt(m, h.free, addr, need);
    var free' := Freed(h.free, addr, need);
    var h' := h.(busy := h.busy - {addr}, free := free');
    BlocksAt(h');
    var m' := JoinedBlocks(m, h.free, addr, need);
    forall x | x in Blocks(h') ensures x in m' && Blocks(h')[x] == m'[x] {}
    forall x | x in m' ensures x in Blocks(h') {}
    assert Blocks(h') == m';
  }

  lemma DeallocateKept(h: Heap, addr: nat)
    requires Kept(h) && addr in h.busy
    ensures Kept(Deallocate(h, addr).0) && addr !in Deallocate(h, addr).0.busy
  {
    var need := RoundUp(h.busy[addr]);
    DeallocateIs(h, addr);
    FreedBlocks(h, addr);
    BusyIsClear(h, addr);
    hide RoundUp, Tiles, Blocks, Index, Deallocate, AtMost;
    JoinNextAt(h.free, addr, need);
    var (f1, size) := JoinNext(h.free, addr, need);
    JoinPrevAt(f1, addr, size);
    SameBlocks(Deallocate(h, addr).0, h.(busy := h.busy - {addr}, free := JoinPrev(f1, addr, size)));
  }
}
