/**
 The out-of-order wake-up network: instructions renamed in program order, the lists
 of instructions that wait for each one, and the events that release them.
 */
module Wakeup {
  import opened Options

  // ---------- instructions ----------

  /** The register nothing produces, and the one that results nobody reads go to. */
  const NO_DEPENDENCE: nat := 0
  const INVALID_OUTPUT: nat := 68

  datatype Kind = Plain | Event | Load(word: nat) | Store(word: nat)

  datatype Desc = Desc(core: nat, ctx: int, src1: nat, src2: nat, dest: nat, kind: Kind) {
    /** What the decoder guarantees. */
    predicate Decoded() {
      && src1 != INVALID_OUTPUT && src2 != INVALID_OUTPUT && dest != NO_DEPENDENCE
      && (kind.Load? ==> src2 == NO_DEPENDENCE)
      && (kind.Store? || kind.Event? ==> dest == INVALID_OUTPUT)
    }
  }

  /** Instruction c waits for an operand: its second one, or its first. */
  datatype Dep = Dep(c: nat, second: bool)

  /** What changes about an instruction: who waits for it, in order; the operands it waits for itself; and how far it
      has come. `sends` counts how often it was sent on to execute. */
  datatype Inst = Inst(pending: seq<Dep>, used1: bool, used2: bool, nDeps: int, atRetire: bool, forwarded: bool,
                       executed: bool, retired: bool, gone: bool, sends: nat)

  /** Instructions are numbered in the order in which they are renamed. The alias table says who will write a register
      of a core, the store buffer which store was the last to a word. */
  datatype State = State(descs: seq<Desc>, insts: seq<Inst>, rat: map<(nat, nat), nat>, stores: map<nat, nat>)

  function Init(): State { State([], [], map[], map[]) }

  // ---------- the program's own dependences ----------

  /** The last of the first n instructions to write a register of a core. */
  function Writer(descs: seq<Desc>, n: nat, core: nat, reg: nat): (w: Option<nat>)
    requires n <= |descs|
    ensures w.Some? ==> w.value < n && descs[w.value].core == core && descs[w.value].dest == reg
  {
    if n == 0 then None
    else if descs[n - 1].core == core && descs[n - 1].dest == reg then Some(n - 1)
    else Writer(descs, n - 1, core, reg)
  }

  /** The last of the first n instructions to store to a word. */
  function LastStore(descs: seq<Desc>, n: nat, word: nat): (w: Option<nat>)
    requires n <= |descs|
    ensures w.Some? ==> w.value < n && descs[w.value].kind == Store(word)
  {
    if n == 0 then None
    else if descs[n - 1].kind == Store(word) then Some(n - 1)
    else LastStore(descs, n - 1, word)
  }

  /** The instruction that produces an operand of instruction i: for a load's second one, the last store to its word. */
  function Source(descs: seq<Desc>, i: nat, second: bool): (p: Option<nat>)
    requires i < |descs|
    ensures p.Some? ==> p.value < i
  {
    var d := descs[i];
    if !second then Writer(descs, i, d.core, d.src1)
    else if d.kind.Load? then LastStore(descs, i, d.kind.word)
    else Writer(descs, i, d.core, d.src2)
  }

  /** A load that depends on a store of another context waits until that store is performed. */
  predicate Remote(descs: seq<Desc>, i: nat, second: bool, p: nat)
    requires i < |descs| && p < |descs|
  {
    second && descs[i].kind.Load? && descs[p].ctx != descs[i].ctx
  }

  // ---------- renaming ----------

  function Lookup<K, V>(m: map<K, V>, k: K): Option<V> {
    if k in m then Some(m[k]) else None
  }

  function Bit(b: bool): nat { if b then 1 else 0 }

  /** The store a load has to wait for: one of another context even if executed, one of its own only until then. */
  function StoreToAwait(s: State, d: Desc): Option<nat>
    requires Shape(s)
  {
    if d.kind.Load? && d.kind.word in s.stores then
      var p := s.stores[d.kind.word];
      if s.descs[p].ctx != d.ctx || !s.insts[p].executed then Some(p) else None
    else None
  }

  /** The producers that a newly renamed instruction finds in the alias table and the store buffer. */
  function Found1(s: State, d: Desc): Option<nat> {
    Lookup(s.rat, (d.core, d.src1))
  }

  function Found2(s: State, d: Desc): Option<nat>
    requires Shape(s)
  {
    if StoreToAwait(s, d).Some? then StoreToAwait(s, d) else Lookup(s.rat, (d.core, d.src2))
  }

  predicate Shape(s: State) {
    && |s.insts| == |s.descs|
    && (forall k | k in s.rat :: s.rat[k] < |s.descs|)
    && (forall w | w in s.stores :: s.stores[w] < |s.descs|)
  }

  function NewInst(s: State, d: Desc): Inst
    requires Shape(s)
  {
    var used1, used2 := Found1(s, d).Some?, Found2(s, d).Some?;
    var store := if d.kind.Load? then Lookup(s.stores, d.kind.word) else None;
    Inst([], used1, used2, Bit(used1) + Bit(used2),
         store.Some? && s.descs[store.value].ctx != d.ctx, store.Some? && s.descs[store.value].ctx == d.ctx,
         false, false, false, if used1 || used2 then 0 else 1)
  }

  /** The entries a new instruction adds to the list of instruction j: first for a store it found in the buffer, then
      for its operands. */
  function Added(s: State, d: Desc, j: nat): seq<Dep>
    requires Shape(s)
  {
    var i := |s.insts|;
    var fromStore := StoreToAwait(s, d).Some?;
    (if fromStore && Found2(s, d) == Some(j) then [Dep(i, true)] else [])
    + (if Found1(s, d) == Some(j) then [Dep(i, false)] else [])
    + (if !fromStore && Found2(s, d) == Some(j) then [Dep(i, true)] else [])
  }

  /** Renaming the next instruction of a core: it queues behind its producers, becomes the producer of its
      destination, and without anything to wait for is sent on at once. */
  function AddInst(s: State, d: Desc): (s': State)
    requires Shape(s)
    ensures Shape(s')
  {
    var i := |s.insts|;
    var insts := seq(i, j requires 0 <= j < i => s.insts[j].(pending := s.insts[j].pending + Added(s, d, j)));
    State(s.descs + [d], insts + [NewInst(s, d)], s.rat[(d.core, d.dest) := i],
          if d.kind.Store? then s.stores[d.kind.word := i] else s.stores)
  }

  // ---------- waking up ----------

  /** An instruction that has got operands it waited for; with the last one it is sent on. */
  function Given(x: Inst, one: bool, two: bool): Inst {
    var left := x.nDeps - Bit(one) - Bit(two);
    x.(used1 := x.used1 && !one, used2 := x.used2 && !two, nDeps := left,
       sends := if (one || two) && left == 0 then x.sends + 1 else x.sends)
  }

  /** Whether an execution of a store leaves an entry of its list in place. */
  predicate Stays(s: State, p: nat, dep: Dep)
    requires Shape(s) && p < |s.insts|
  {
    s.descs[p].kind.Store? && dep.c < |s.insts| && s.insts[dep.c].atRetire
  }

  /** The entries among the first n that stay, in order. */
  function Staying(s: State, p: nat, n: nat): seq<Dep>
    requires Shape(s) && p < |s.insts| && n <= |s.insts[p].pending|
  {
    if n == 0 then []
    else
      var dep := s.insts[p].pending[n - 1];
      if Stays(s, p, dep) then Staying(s, p, n - 1) + [dep] else Staying(s, p, n - 1)
  }

  /** Instruction i once the first n entries of p's list have been gone through. */
  function Woken(s: State, p: nat, n: nat, i: nat): Inst
    requires Shape(s) && p < |s.insts| && n <= |s.insts[p].pending| && i < |s.insts|
  {
    var seen := s.insts[p].pending[..n];
    Given(s.insts[i], Dep(i, false) in seen && !Stays(s, p, Dep(i, false)), Dep(i, true) in seen && !Stays(s, p, Dep(i, true)))
  }

  /** The alias table forgets an instruction that has executed. */
  function Forget(rat: map<(nat, nat), nat>, key: (nat, nat), p: nat): map<(nat, nat), nat> {
    if key in rat && rat[key] == p then rat - {key} else rat
  }

  /** p has executed: those that wait for it get their operand, except loads of other contexts behind a store. */
  function Execute(s: State, p: nat): (s': State)
    requires Shape(s) && p < |s.insts|
    ensures Shape(s')
  {
    var n := |s.insts[p].pending|;
    var insts := seq(|s.insts|, i requires 0 <= i < |s.insts| => Woken(s, p, n, i));
    s.(rat := if s.descs[p].kind.Event? then s.rat else Forget(s.rat, (s.descs[p].core, s.descs[p].dest), p),
       insts := insts[p := insts[p].(executed := true, pending := Staying(s, p, n))])
  }

  /** A store that has been performed releases the loads of other contexts. */
  function Destroy(s: State, p: nat): (s': State)
    requires Shape(s) && p < |s.insts|
    ensures Shape(s')
  {
    var list := s.insts[p].pending;
    var insts := seq(|s.insts|, i requires 0 <= i < |s.insts| =>
      if Dep(i, true) in list then Given(s.insts[i], false, true).(atRetire := false) else s.insts[i]);
    s.(insts := insts[p := insts[p].(gone := true, pending := [])])
  }

  /** p leaves the reorder buffer. A store leaves the store buffer too, and is destroyed only once performed. */
  function Retire(s: State, p: nat): (s': State)
    requires Shape(s) && p < |s.insts|
    ensures Shape(s')
  {
    var s1 := s.(insts := s.insts[p := s.insts[p].(retired := true)]);
    match s.descs[p].kind
    case Store(w) => s1.(stores := if w in s.stores && s.stores[w] == p then s.stores - {w} else s.stores)
    case _ => Destroy(s1, p)
  }

  // ---------- runs ----------

  datatype Event = Rename(d: Desc) | Executed(p: nat) | Retired(p: nat) | Performed(p: nat)

  /** An instruction executes once it was sent on, leaves the reorder buffer of its core in order, and a store is
      performed after it left. */
  predicate Enabled(s: State, e: Event)
    requires Shape(s)
  {
    match e
    case Rename(d) => d.Decoded()
    case Executed(p) => p < |s.insts| && s.insts[p].sends > 0 && !s.insts[p].executed
    case Retired(p) =>
      && p < |s.insts| && s.insts[p].executed && !s.insts[p].retired
      && forall q | 0 <= q < p && s.descs[q].core == s.descs[p].core :: s.insts[q].retired
    case Performed(p) => p < |s.insts| && s.descs[p].kind.Store? && s.insts[p].retired && !s.insts[p].gone
  }

  function Step(s: State, e: Event): (s': State)
    requires Shape(s)
    ensures Shape(s')
  {
    if !Enabled(s, e) then s
    else match e
      case Rename(d) => AddInst(s, d)
      case Executed(p) => Execute(s, p)
      case Retired(p) => Retire(s, p)
      case Performed(p) => Destroy(s, p)
  }

  function Exec(events: seq<Event>): (s: State)
    ensures Shape(s)
  {
    if events == [] then Init() else Step(Exec(events[..|events| - 1]), events[|events| - 1])
  }

  // ---------- the invariant ----------

  /** Whether the producer p of an operand of i has done what i waits for. */
  predicate Delivered(s: State, i: nat, second: bool, p: nat)
    requires Shape(s) && i < |s.insts| && p < |s.insts|
  {
    if Remote(s.descs, i, second, p) then s.insts[p].gone else s.insts[p].executed
  }

  predicate Used(x: Inst, second: bool) {
    if second then x.used2 else x.used1
  }

  /** An operand is waited for only while its source has not delivered it; and one not waited for is there. A store of
      another context counts as performed from the moment it left the store buffer. */
  predicate Operand(s: State, i: nat, second: bool)
    requires Shape(s) && i < |s.insts|
  {
    match Source(s.descs, i, second)
    case None => !Used(s.insts[i], second)
    case Some(p) =>
      if Used(s.insts[i], second) then !Delivered(s, i, second, p)
      else Delivered(s, i, second, p) || (Remote(s.descs, i, second, p) && s.insts[p].retired)
  }

  predicate Counted(s: State, i: nat)
    requires Shape(s) && i < |s.insts|
  {
    var x := s.insts[i];
    && s.descs[i].Decoded()
    && x.nDeps == Bit(x.used1) + Bit(x.used2)
    && x.sends == (if x.nDeps == 0 then 1 else 0)
    && (x.executed ==> x.nDeps == 0) && (x.retired ==> x.executed) && (x.gone ==> x.retired)
    && (x.atRetire ==> x.used2)
    && (x.used2 ==> Source(s.descs, i, true).Some? && x.atRetire == Remote(s.descs, i, true, Source(s.descs, i, true).value))
  }

  ghost predicate NoneTwice(q: seq<Dep>) {
    forall j, k | 0 <= j < k < |q| :: q[j] != q[k]
  }

  /** The list of p has an entry exactly if it is for an operand waited for that p produces. */
  predicate LinkRight(s: State, p: nat, dep: Dep)
    requires Shape(s) && p < |s.insts|
  {
    dep in s.insts[p].pending <==>
      dep.c < |s.insts| && Used(s.insts[dep.c], dep.second) && Source(s.descs, dep.c, dep.second) == Some(p)
  }

  ghost predicate Linked(s: State)
    requires Shape(s)
  {
    forall p, dep: Dep | 0 <= p < |s.insts| :: LinkRight(s, p, dep)
  }

  /** The alias table names the last writer of every readable register as long as it has not executed. */
  ghost predicate AliasRight(s: State)
    requires Shape(s)
  {
    forall core, reg | reg != INVALID_OUTPUT ::
      var w := Writer(s.descs, |s.descs|, core, reg);
      Lookup(s.rat, (core, reg)) == if w.Some? && !s.insts[w.value].executed then w else None
  }

  /** The store buffer names the last store to every word as long as it has not retired. */
  ghost predicate StoresRight(s: State)
    requires Shape(s)
  {
    forall word :: var w := LastStore(s.descs, |s.descs|, word);
      Lookup(s.stores, word) == if w.Some? && !s.insts[w.value].retired then w else None
  }

  ghost predicate InstsRight(s: State)
    requires Shape(s)
  {
    forall i | 0 <= i < |s.insts| :: Counted(s, i) && Operand(s, i, false) && Operand(s, i, true) && NoneTwice(s.insts[i].pending)
  }

  ghost predicate Kept(s: State) {
    Shape(s) && InstsRight(s) && Linked(s) && AliasRight(s) && StoresRight(s)
  }

  // ---------- renaming keeps it ----------

  lemma {:induction false} WriterPrefix(descs: seq<Desc>, d: Desc, n: nat, core: nat, reg: nat)
    requires n <= |descs|
    ensures Writer(descs + [d], n, core, reg) == Writer(descs, n, core, reg)
  {
    if n > 0 { WriterPrefix(descs, d, n - 1, core, reg); }
  }

  lemma {:induction false} LastStorePrefix(descs: seq<Desc>, d: Desc, n: nat, word: nat)
    requires n <= |descs|
    ensures LastStore(descs + [d], n, word) == LastStore(descs, n, word)
  {
    if n > 0 { LastStorePrefix(descs, d, n - 1, word); }
  }

  lemma SourcePrefix(descs: seq<Desc>, d: Desc, i: nat, second: bool)
    requires i < |descs|
    ensures Source(descs + [d], i, second) == Source(descs, i, second)
  {
    var x := descs[i];
    assert (descs + [d])[i] == x;
    WriterPrefix(descs, d, i, x.core, x.src1);
    WriterPrefix(descs, d, i, x.core, x.src2);
    if x.kind.Load? { LastStorePrefix(descs, d, i, x.kind.word); }
  }

  lemma AddInstAt(s: State, d: Desc)
    requires Shape(s)
    ensures var s' := AddInst(s, d); var i := |s.insts|;
      && |s'.insts| == i + 1 && s'.insts[i] == NewInst(s, d)
      && (forall j | 0 <= j < i :: s'.insts[j] == s.insts[j].(pending := s.insts[j].pending + Added(s, d, j)))
  {
  }

  lemma AddedHas(s: State, d: Desc, j: nat, dep: Dep)
    requires Shape(s)
    ensures dep in Added(s, d, j) <==> dep.c == |s.insts| && (if dep.second then Found2(s, d) else Found1(s, d)) == Some(j)
    ensures NoneTwice(Added(s, d, j))
  {
  }

  /** What a new instruction waits for are exactly its sources that have not delivered. */
  lemma FoundRight(s: State, d: Desc)
    requires Kept(s) && d.Decoded()
    ensures var s' := AddInst(s, d); var i := |s.insts|;
      && (Found1(s, d).Some? ==> Source(s'.descs, i, false) == Found1(s, d))
      && (Found2(s, d).Some? ==> Source(s'.descs, i, true) == Found2(s, d))
      && Counted(s', i) && Operand(s', i, false) && Operand(s', i, true)
  {
    var s', i := AddInst(s, d), |s.insts|;
    AddInstAt(s, d);
    WriterPrefix(s.descs, d, i, d.core, d.src1);
    WriterPrefix(s.descs, d, i, d.core, d.src2);
    if d.kind.Load? {
      LastStorePrefix(s.descs, d, i, d.kind.word);
      assert Writer(s.descs, i, d.core, NO_DEPENDENCE).None? by { NothingWritesZero(s, i, d.core); }
    }
    var w1, w2 := Source(s'.descs, i, false), Source(s'.descs, i, true);
    assert w1.Some? ==> Counted(s, w1.value);
    assert w2.Some? ==> Counted(s, w2.value);
    hide AddInst, InstsRight, Linked, Writer, LastStore;
  }

  lemma {:induction false} NothingWritesZero(s: State, n: nat, core: nat)
    requires Shape(s) && InstsRight(s) && n <= |s.descs|
    ensures Writer(s.descs, n, core, NO_DEPENDENCE).None?
  {
    if n > 0 {
      assert Counted(s, n - 1);
      NothingWritesZero(s, n - 1, core);
    }
  }

  lemma AddKeepsInst(s: State, d: Desc, j: nat)
    requires Kept(s) && d.Decoded() && j < |s.insts|
    ensures var s' := AddInst(s, d);
      Counted(s', j) && Operand(s', j, false) && Operand(s', j, true) && NoneTwice(s'.insts[j].pending)
  {
    AddInstAt(s, d);
    SourcePrefix(s.descs, d, j, false);
    SourcePrefix(s.descs, d, j, true);
    AddKeepsList(s, d, j);
    assert Counted(s, j) && Operand(s, j, false) && Operand(s, j, true);
    assert AddInst(s, d).descs == s.descs + [d];
    hide AddInst, InstsRight, AliasRight, StoresRight, Source, Added, Linked, NoneTwice;
  }

  lemma AddKeepsList(s: State, d: Desc, j: nat)
    requires Kept(s) && j < |s.insts|
    ensures NoneTwice(s.insts[j].pending + Added(s, d, j))
  {
    AddedHas(s, d, j, Dep(0, false));
    assert NoneTwice(s.insts[j].pending);
    forall k | 0 <= k < |Added(s, d, j)| ensures Added(s, d, j)[k] !in s.insts[j].pending {
      AddedHas(s, d, j, Added(s, d, j)[k]);
      assert LinkRight(s, j, Added(s, d, j)[k]);
    }
    hide Added;
  }

  lemma AddKeepsLinks(s: State, d: Desc)
    requires Kept(s) && d.Decoded()
    ensures Linked(AddInst(s, d))
  {
    var s', i := AddInst(s, d), |s.insts|;
    AddInstAt(s, d);
    FoundRight(s, d);
    forall p, dep: Dep | 0 <= p < |s'.insts| ensures LinkRight(s', p, dep) {
      if p < i { assert LinkRight(s, p, dep); }
      if dep.c < i { SourcePrefix(s.descs, d, dep.c, dep.second); }
      if p < i { AddedHas(s, d, p, dep); }
    }
  }

  lemma AddKeepsTables(s: State, d: Desc)
    requires Kept(s) && d.Decoded()
    ensures AliasRight(AddInst(s, d)) && StoresRight(AddInst(s, d))
  {
    var s', i := AddInst(s, d), |s.insts|;
    AddInstAt(s, d);
    forall core, reg | reg != INVALID_OUTPUT
      ensures var w := Writer(s'.descs, |s'.descs|, core, reg);
        Lookup(s'.rat, (core, reg)) == if w.Some? && !s'.insts[w.value].executed then w else None
    {
      WriterPrefix(s.descs, d, i, core, reg);
    }
    forall word
      ensures var w := LastStore(s'.descs, |s'.descs|, word);
        Lookup(s'.stores, word) == if w.Some? && !s'.insts[w.value].retired then w else None
    {
      LastStorePrefix(s.descs, d, i, word);
    }
  }

  lemma AddKept(s: State, d: Desc)
    requires Kept(s) && d.Decoded()
    ensures Kept(AddInst(s, d))
  {
    var s' := AddInst(s, d);
    FoundRight(s, d);
    AddInstAt(s, d);
    AddKeepsLinks(s, d);
    AddKeepsTables(s, d);
    hide *;
    forall j | 0 <= j < |s'.insts|
      ensures Counted(s', j) && Operand(s', j, false) && Operand(s', j, true) && NoneTwice(s'.insts[j].pending)
    {
      if j < |s.insts| { AddKeepsInst(s, d, j); }
    }
  }

  // ---------- execution keeps it ----------

  lemma {:induction false} StayingHas(s: State, p: nat, n: nat, dep: Dep)
    requires Shape(s) && p < |s.insts| && n <= |s.insts[p].pending|
    ensures dep in Staying(s, p, n) <==> dep in s.insts[p].pending[..n] && Stays(s, p, dep)
  {
    if n > 0 {
      var list := s.insts[p].pending;
      assert list[..n] == list[..n - 1] + [list[n - 1]];
      StayingHas(s, p, n - 1, dep);
    }
  }

  lemma {:induction false} StayingOnce(s: State, p: nat, n: nat)
    requires Shape(s) && p < |s.insts| && n <= |s.insts[p].pending| && NoneTwice(s.insts[p].pending)
    ensures NoneTwice(Staying(s, p, n))
  {
    if n > 0 {
      StayingOnce(s, p, n - 1);
      StayingHas(s, p, n - 1, s.insts[p].pending[n - 1]);
    }
  }

  /** What the execution of p takes from instruction i: the operands that p produces, but for a remote load's. */
  predicate Frees(s: State, p: nat, i: nat, second: bool)
    requires Shape(s) && p < |s.insts| && i < |s.insts|
  {
    Used(s.insts[i], second) && Source(s.descs, i, second) == Some(p) && !Remote(s.descs, i, second, p)
  }

  lemma SourceIsStore(s: State, i: nat, p: nat)
    requires Kept(s) && i < |s.insts| && p < |s.insts|
    ensures Source(s.descs, i, false) == Some(p) ==> !s.descs[p].kind.Store?
    ensures Source(s.descs, i, true) == Some(p) ==> (s.descs[p].kind.Store? <==> s.descs[i].kind.Load?)
  {
    assert Counted(s, i) && Counted(s, p);
  }

  lemma StaysRemote(s: State, p: nat, i: nat, second: bool)
    requires Kept(s) && p < |s.insts| && i < |s.insts|
    ensures var dep := Dep(i, second);
      && (dep in s.insts[p].pending && !Stays(s, p, dep) <==> Frees(s, p, i, second))
      && (dep in s.insts[p].pending && Stays(s, p, dep) <==>
            second && s.insts[i].used2 && Source(s.descs, i, true) == Some(p) && Remote(s.descs, i, true, p))
  {
    SourceIsStore(s, i, p);
    assert Counted(s, i);
    assert LinkRight(s, p, Dep(i, second));
  }

  lemma ExecuteAt(s: State, p: nat, i: nat)
    requires Kept(s) && p < |s.insts| && i < |s.insts|
    ensures var x := Given(s.insts[i], Frees(s, p, i, false), Frees(s, p, i, true));
      Execute(s, p).insts[i] ==
        if i == p then x.(executed := true, pending := Staying(s, p, |s.insts[p].pending|)) else x
  {
    StaysRemote(s, p, i, false);
    StaysRemote(s, p, i, true);
    var list := s.insts[p].pending;
    assert list[..|list|] == list;
    assert Woken(s, p, |list|, i) == Given(s.insts[i], Frees(s, p, i, false), Frees(s, p, i, true));
    hide Woken, Given, Frees, InstsRight, Linked, AliasRight, StoresRight, Staying;
  }

  lemma ExecuteFlags(s: State, p: nat, q: nat)
    requires Kept(s) && p < |s.insts| && q < |s.insts|
    ensures var x, x' := s.insts[q], Execute(s, p).insts[q];
      x'.executed == (x.executed || q == p) && x'.retired == x.retired && x'.gone == x.gone
  {
    hide Execute, InstsRight, Linked, AliasRight, StoresRight, Given, Frees;
    ExecuteAt(s, p, q);
    GivenFlags(s.insts[q], Frees(s, p, q, false), Frees(s, p, q, true));
  }

  lemma GivenFlags(x: Inst, one: bool, two: bool)
    ensures var y := Given(x, one, two);
      && y.executed == x.executed && y.retired == x.retired && y.gone == x.gone && y.pending == x.pending
      && y.used1 == (x.used1 && !one) && y.used2 == (x.used2 && !two)
  {
  }

  lemma InstRight(s: State, i: nat)
    requires Kept(s) && i < |s.insts|
    ensures Counted(s, i) && Operand(s, i, false) && Operand(s, i, true) && NoneTwice(s.insts[i].pending)
  {
  }

  lemma ExecuteKeepsCount(s: State, p: nat, i: nat)
    requires Kept(s) && Enabled(s, Executed(p)) && i < |s.insts|
    ensures Counted(Execute(s, p), i)
  {
    InstRight(s, i);
    InstRight(s, p);
    ExecuteAt(s, p, i);
    assert Execute(s, p).descs == s.descs;
    hide Execute, Kept, Source, Linked, Operand;
  }

  lemma ExecuteKeepsOperand(s: State, p: nat, i: nat, second: bool)
    requires Kept(s) && Enabled(s, Executed(p)) && i < |s.insts|
    ensures Operand(Execute(s, p), i, second)
  {
    InstRight(s, i);
    ExecuteAt(s, p, i);
    GivenFlags(s.insts[i], Frees(s, p, i, false), Frees(s, p, i, true));
    var from := Source(s.descs, i, second);
    if from.Some? { ExecuteFlags(s, p, from.value); }
    assert Execute(s, p).descs == s.descs;
    hide Execute, Kept, Source, Linked, Given;
  }

  lemma ExecuteKeepsList(s: State, p: nat, i: nat)
    requires Kept(s) && p < |s.insts| && i < |s.insts|
    ensures NoneTwice(Execute(s, p).insts[i].pending)
  {
    hide Execute, InstsRight, Linked, AliasRight, StoresRight, Given, Frees, NoneTwice;
    InstRight(s, i);
    ExecuteAt(s, p, i);
    GivenFlags(s.insts[i], Frees(s, p, i, false), Frees(s, p, i, true));
    if i == p { StayingOnce(s, p, |s.insts[p].pending|); }
  }

  lemma ExecuteKeepsLinks(s: State, p: nat)
    requires Kept(s) && Enabled(s, Executed(p))
    ensures Linked(Execute(s, p))
  {
    var s' := Execute(s, p);
    assert |s'.insts| == |s.insts|;
    hide Execute, InstsRight, AliasRight, StoresRight, LinkRight;
    forall q, dep: Dep | 0 <= q < |s'.insts| ensures LinkRight(s', q, dep) {
      ExecuteKeepsLink(s, p, q, dep);
    }
  }

  lemma ExecuteKeepsLink(s: State, p: nat, q: nat, dep: Dep)
    requires Kept(s) && p < |s.insts| && q < |s.insts|
    ensures LinkRight(Execute(s, p), q, dep)
  {
    ExecuteAt(s, p, q);
    GivenFlags(s.insts[q], Frees(s, p, q, false), Frees(s, p, q, true));
    assert LinkRight(s, q, dep);
    if dep.c < |s.insts| {
      ExecuteAt(s, p, dep.c);
      GivenFlags(s.insts[dep.c], Frees(s, p, dep.c, false), Frees(s, p, dep.c, true));
      StaysRemote(s, p, dep.c, dep.second);
    }
    var list := s.insts[p].pending;
    assert list[..|list|] == list;
    if q == p { StayingHas(s, p, |list|, dep); }
    assert Execute(s, p).descs == s.descs;
    hide Execute, Kept, Source, Linked, Given, Staying, Stays;
  }

  lemma ExecuteKeepsTables(s: State, p: nat)
    requires Kept(s) && Enabled(s, Executed(p))
    ensures AliasRight(Execute(s, p)) && StoresRight(Execute(s, p))
  {
    var s' := Execute(s, p);
    assert Counted(s, p);
    forall q | 0 <= q < |s.insts| ensures s'.insts[q].executed == (s.insts[q].executed || q == p) && s'.insts[q].retired == s.insts[q].retired {
      ExecuteAt(s, p, q);
    }
  }

  lemma ExecuteKept(s: State, p: nat)
    requires Kept(s) && Enabled(s, Executed(p))
    ensures Kept(Execute(s, p))
  {
    ExecuteKeepsLinks(s, p);
    ExecuteKeepsTables(s, p);
    hide *;
    forall i | 0 <= i < |Execute(s, p).insts|
      ensures var s' := Execute(s, p);
        Counted(s', i) && Operand(s', i, false) && Operand(s', i, true) && NoneTwice(s'.insts[i].pending)
    {
      ExecuteKeepsCount(s, p, i);
      ExecuteKeepsOperand(s, p, i, false);
      ExecuteKeepsOperand(s, p, i, true);
      ExecuteKeepsList(s, p, i);
    }
  }

  // ---------- leaving the reorder buffer keeps it ----------

  /** p marked as out of the reorder buffer and, if it is a store, out of the store buffer. */
  function Left(s: State, p: nat): State
    requires Shape(s) && p < |s.insts|
  {
    var s1 := s.(insts := s.insts[p := s.insts[p].(retired := true)]);
    match s.descs[p].kind
    case Store(w) => s1.(stores := if w in s.stores && s.stores[w] == p then s.stores - {w} else s.stores)
    case _ => s1
  }

  lemma LeftInst(s: State, p: nat, i: nat)
    requires Kept(s) && p < |s.insts| && s.insts[p].executed && i < |s.insts|
    ensures var s' := Left(s, p);
      Counted(s', i) && Operand(s', i, false) && Operand(s', i, true) && NoneTwice(s'.insts[i].pending)
  {
    hide InstsRight, Linked, AliasRight, StoresRight, NoneTwice, Source;
    InstRight(s, i);
    LeftAt(s, p);
    hide Left, Kept;
  }

  /** Leaving changes one flag. */
  lemma LeftAt(s: State, p: nat)
    requires Shape(s) && p < |s.insts|
    ensures var s' := Left(s, p); s'.descs == s.descs && s'.insts == s.insts[p := s.insts[p].(retired := true)]
  {
  }

  lemma LeftKept(s: State, p: nat)
    requires Kept(s) && p < |s.insts| && s.insts[p].executed
    ensures Kept(Left(s, p))
  {
    var s' := Left(s, p);
    forall i | 0 <= i < |s'.insts|
      ensures Counted(s', i) && Operand(s', i, false) && Operand(s', i, true) && NoneTwice(s'.insts[i].pending)
    {
      LeftInst(s, p, i);
    }
    hide Counted, Operand, NoneTwice;
    forall q, dep: Dep | 0 <= q < |s'.insts| ensures LinkRight(s', q, dep) { assert LinkRight(s, q, dep); }
  }

  /** Only loads of other contexts still wait for an instruction that has executed, and nothing for one that is gone. */
  lemma WaitsForExecuted(s: State, p: nat, dep: Dep)
    requires Kept(s) && p < |s.insts| && s.insts[p].executed && dep in s.insts[p].pending
    ensures dep.second && dep.c < |s.insts| && s.insts[dep.c].atRetire && !s.insts[dep.c].executed
    ensures s.descs[p].kind.Store? && s.descs[dep.c].kind.Load? && !s.insts[p].gone
  {
    assert LinkRight(s, p, dep);
    InstRight(s, dep.c);
    SourceIsStore(s, dep.c, p);
  }

  lemma DestroyAt(s: State, p: nat, i: nat)
    requires Kept(s) && p < |s.insts| && s.insts[p].executed && i < |s.insts|
    ensures var two := s.insts[i].used2 && Source(s.descs, i, true) == Some(p);
      var x := if two then Given(s.insts[i], false, true).(atRetire := false) else s.insts[i];
      Destroy(s, p).insts[i] == if i == p then x.(gone := true, pending := []) else x
    ensures !(s.insts[i].used1 && Source(s.descs, i, false) == Some(p))
  {
    assert LinkRight(s, p, Dep(i, true));
    InstRight(s, i);
    hide InstsRight, Linked, AliasRight, StoresRight, NoneTwice, Given;
  }

  lemma DestroyFlags(s: State, p: nat, q: nat)
    requires Kept(s) && p < |s.insts| && s.insts[p].executed && q < |s.insts|
    ensures var x, x' := s.insts[q], Destroy(s, p).insts[q];
      && x'.executed == x.executed && x'.retired == x.retired && x'.gone == (x.gone || q == p)
      && x'.pending == (if q == p then [] else x.pending) && x'.used1 == x.used1
      && x'.used2 == (x.used2 && Source(s.descs, q, true) != Some(p))
  {
    DestroyAt(s, p, q);
    GivenFlags(s.insts[q], false, true);
    hide Destroy, InstsRight, Linked, AliasRight, StoresRight, Given;
  }

  lemma DestroyKeepsInst(s: State, p: nat, i: nat)
    requires Kept(s) && p < |s.insts| && s.insts[p].retired && i < |s.insts|
    ensures var s' := Destroy(s, p); Counted(s', i) && NoneTwice(s'.insts[i].pending)
  {
    InstRight(s, p);
    InstRight(s, i);
    DestroyAt(s, p, i);
    assert Destroy(s, p).descs == s.descs;
    hide Destroy, InstsRight, Linked, AliasRight, StoresRight, Source;
  }

  lemma DestroyKeepsOperand(s: State, p: nat, i: nat, second: bool)
    requires Kept(s) && p < |s.insts| && s.insts[p].retired && i < |s.insts|
    ensures Operand(Destroy(s, p), i, second)
  {
    InstRight(s, p);
    InstRight(s, i);
    DestroyAt(s, p, i);
    DestroyFlags(s, p, i);
    var from := Source(s.descs, i, second);
    if from.Some? { DestroyFlags(s, p, from.value); }
    assert Destroy(s, p).descs == s.descs;
    hide Destroy, InstsRight, Linked, AliasRight, StoresRight, Source, Given;
  }

  lemma DestroyKeepsLink(s: State, p: nat, q: nat, dep: Dep)
    requires Kept(s) && p < |s.insts| && s.insts[p].executed && q < |s.insts|
    ensures LinkRight(Destroy(s, p), q, dep)
  {
    assert LinkRight(s, q, dep);
    DestroyFlags(s, p, q);
    if dep.c < |s.insts| {
      DestroyAt(s, p, dep.c);
      DestroyFlags(s, p, dep.c);
    }
    assert Destroy(s, p).descs == s.descs && |Destroy(s, p).insts| == |s.insts|;
    hide Destroy, InstsRight, Linked, AliasRight, StoresRight, Source, Given;
  }

  lemma DestroyKept(s: State, p: nat)
    requires Kept(s) && p < |s.insts| && s.insts[p].retired
    ensures Kept(Destroy(s, p))
  {
    var s' := Destroy(s, p);
    InstRight(s, p);
    assert |s'.insts| == |s.insts| && s'.descs == s.descs && s'.rat == s.rat && s'.stores == s.stores;
    hide Destroy, Counted, Operand, NoneTwice, LinkRight, Source;
    forall i | 0 <= i < |s'.insts|
      ensures Counted(s', i) && Operand(s', i, false) && Operand(s', i, true) && NoneTwice(s'.insts[i].pending)
    {
      DestroyKeepsInst(s, p, i);
      DestroyKeepsOperand(s, p, i, false);
      DestroyKeepsOperand(s, p, i, true);
    }
    forall q, dep: Dep | 0 <= q < |s'.insts| ensures LinkRight(s', q, dep) { DestroyKeepsLink(s, p, q, dep); }
    forall q | 0 <= q < |s.insts| ensures s'.insts[q].executed == s.insts[q].executed && s'.insts[q].retired == s.insts[q].retired {
      DestroyFlags(s, p, q);
    }
  }

  lemma RetireKept(s: State, p: nat)
    requires Kept(s) && Enabled(s, Retired(p))
    ensures Kept(Retire(s, p))
  {
    LeftKept(s, p);
    if !s.descs[p].kind.Store? { DestroyKept(Left(s, p), p); }
    hide Kept, Destroy;
  }

  lemma StepKept(s: State, e: Event)
    requires Kept(s)
    ensures Kept(Step(s, e))
  {
    hide InstsRight, Linked, AliasRight, StoresRight, AddInst, Execute, Retire, Destroy;
    if Enabled(s, e) {
      match e {
        case Rename(d) => AddKept(s, d);
        case Executed(p) => ExecuteKept(s, p);
        case Retired(p) => RetireKept(s, p);
        case Performed(p) => DestroyKept(s, p);
      }
    }
  }

  /** Whatever is renamed, and in whatever order instructions execute, retire and are performed. */
  lemma {:induction false} KeptAlways(events: seq<Event>)
    ensures Kept(Exec(events))
  {
    if events != [] {
      KeptAlways(events[..|events| - 1]);
      StepKept(Exec(events[..|events| - 1]), events[|events| - 1]);
    }
  }
}
