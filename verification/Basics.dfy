/**
  * Arithmetic and finite sets.
  */
module Basics {
  lemma MulLe(a: nat, b: nat, n: nat)
    requires a <= b
    ensures a * n <= b * n
  {
  }

  lemma QuotientIs(x: nat, d: nat, b: nat)
    requires d > 0 && d * b <= x < d * b + d
    ensures x / d == b
  {
    assert x == d * (x / d) + x % d;
    if x / d < b {
      MulLe(x / d + 1, b, d);
    } else if x / d > b {
      MulLe(b + 1, x / d, d);
    }
  }

  lemma {:induction false} SubsetSize<T>(a: set<T>, b: set<T>)
    requires a <= b
    ensures |a| <= |b|
  {
    if a != {} {
      var x :| x in a;
      SubsetSize(a - {x}, b - {x});
    }
  }

  // Sets that differ at most in x differ in size by x alone.
  lemma OneApart<T(!new)>(a: set<T>, b: set<T>, x: T)
    requires forall y :: y != x ==> (y in a <==> y in b)
    ensures |a| - (if x in a then 1 else 0) == |b| - (if x in b then 1 else 0)
  {
    assert a - {x} == b - {x};
    assert x in a ==> a == (a - {x}) + {x};
    assert x in b ==> b == (b - {x}) + {x};
    assert x !in a ==> a == a - {x};
    assert x !in b ==> b == b - {x};
  }

  // The numbers below n.
  ghost function UpTo(n: nat): (s: set<nat>)
    ensures |s| == n && forall j :: j in s <==> 0 <= j < n
  {
    if n == 0 then {} else UpTo(n - 1) + {n - 1}
  }
}
