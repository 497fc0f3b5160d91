/** Counting different numbers below a bound. */
module Pigeonhole {

  function Below(m: nat): (r: set<nat>)
    ensures |r| == m && forall x: nat :: x in r <==> x < m
  {
    if m == 0 then {} else Below(m - 1) + {m - 1}
  }

  ghost predicate AllDifferent(f: seq<nat>) {
    forall i, j | 0 <= i < j < |f| :: f[i] != f[j]
  }

  lemma {:induction false} ElemsSize(f: seq<nat>)
    requires AllDifferent(f)
    ensures |set k | 0 <= k < |f| :: f[k]| == |f|
  {
    if f != [] {
      var n := |f| - 1;
      ElemsSize(f[..n]);
      assert (set k | 0 <= k < |f| :: f[k]) == (set k | 0 <= k < n :: f[..n][k]) + {f[n]};
    }
  }

  lemma {:induction false} SubsetOfSize(a: set<nat>, b: set<nat>)
    requires a <= b
    ensures |a| <= |b|
    ensures |a| == |b| ==> a == b
  {
    if a != {} {
      var x :| x in a;
      SubsetOfSize(a - {x}, b - {x});
      assert a == (a - {x}) + {x} && b == (b - {x}) + {x};
    }
  }

  /** There are no more than m different numbers below m; if there are as many, they are all of them. */
  lemma DifferentBelow(f: seq<nat>, m: nat)
    requires AllDifferent(f) && forall i | 0 <= i < |f| :: f[i] < m
    ensures |f| <= m
    ensures |f| == m ==> forall c: nat | c < m :: c in f
  {
    ElemsSize(f);
    var elems := set k | 0 <= k < |f| :: f[k];
    SubsetOfSize(elems, Below(m));
    if |f| == m {
      forall c: nat | c < m ensures c in f { assert c in elems; }
    }
  }
}
