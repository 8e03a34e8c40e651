/**
  * The address ranges of VDEVs and PDEV streams: validity, overlap and coverage.
  */
module VdevRanges {
  import opened Basics
  datatype Range = Range(base: nat, top: nat)

  predicate Within(r: Range, x: nat) {
    r.base <= x < r.top
  }

  // Address x lies in one of the ranges.
  predicate Covers(rs: seq<Range>, x: nat) {
    exists i :: 0 <= i < |rs| && Within(rs[i], x)
  }

  // Every range is non-empty and the ranges are in order.
  ghost predicate Sorted(rs: seq<Range>) {
    && (forall i :: 0 <= i < |rs| ==> rs[i].base < rs[i].top)
    && (forall i, j :: 0 <= i < j < |rs| ==> rs[i].top <= rs[j].base)
  }

  ghost predicate Share(a: seq<Range>, b: seq<Range>) {
    exists x :: Covers(a, x) && Covers(b, x)
  }

  // ---------------------------------------------------------------- validity

  lemma NotSorted(rs: seq<Range>, i: nat, lastTop: nat)
    requires i < |rs| && lastTop == (if i == 0 then 0 else rs[i - 1].top) && (rs[i].base >= rs[i].top || rs[i].base < lastTop)
    ensures !Sorted(rs)
  {
  }

  method RangesValid(rs: seq<Range>) returns (ok: bool)
    ensures ok <==> Sorted(rs)
  {
    var lastTop, i := 0, 0;
    while i < |rs|
      invariant 0 <= i <= |rs| && Sorted(rs[..i])
      invariant forall k :: 0 <= k < i ==> rs[k].top <= lastTop
      invariant lastTop == if i == 0 then 0 else rs[i - 1].top
    {
      if rs[i].base >= rs[i].top || rs[i].base < lastTop {
        NotSorted(rs, i, lastTop);
        return false;
      }
      lastTop := rs[i].top;
      i := i + 1;
    }
    assert rs[..i] == rs;
    return true;
  }

  // ---------------------------------------------------------------- overlap

  // On valid ranges the walk with one index into each list finds an overlap exactly when some address lies in both lists.
  method RangesOverlap(a: seq<Range>, b: seq<Range>) returns (hit: bool)
    requires Sorted(a) && Sorted(b)
    ensures hit <==> Share(a, b)
  {
    var i, j := 0, 0;
    while i < |a| && j < |b|
      invariant 0 <= i <= |a| && 0 <= j <= |b|
      invariant forall k, l :: 0 <= k < |a| && 0 <= l < |b| && (k < i || l < j) ==> Apart(a[k], b[l])
      decreases |a| - i + |b| - j
    {
      if a[i].base < b[j].top && b[j].base < a[i].top {
        var x := if a[i].base < b[j].base then b[j].base else a[i].base;
        assert Within(a[i], x) && Within(b[j], x);
        assert Covers(a, x) && Covers(b, x);
        return true;
      }
      if a[i].top <= b[j].base {
        forall l | j <= l < |b| ensures Apart(a[i], b[l]) {}
        i := i + 1;
      } else {
        forall k | i <= k < |a| ensures Apart(a[k], b[j]) {}
        j := j + 1;
      }
    }
    NoSharedAddress(a, b);
    return false;
  }

  predicate Apart(r: Range, q: Range) {
    r.top <= q.base || q.top <= r.base
  }

  lemma NoSharedAddress(a: seq<Range>, b: seq<Range>)
    requires forall k, l :: 0 <= k < |a| && 0 <= l < |b| ==> Apart(a[k], b[l])
    ensures !Share(a, b)
  {
    forall k, l, x | 0 <= k < |a| && 0 <= l < |b| && Within(a[k], x)
      ensures !Within(b[l], x)
    {
      assert Apart(a[k], b[l]);
    }
  }

  lemma ShareSymmetric(a: seq<Range>, b: seq<Range>)
    ensures Share(a, b) <==> Share(b, a)
  {
    if x: nat :| Covers(a, x) && Covers(b, x) {
      assert Covers(b, x) && Covers(a, x);
    }
    if x: nat :| Covers(b, x) && Covers(a, x) {
      assert Covers(a, x) && Covers(b, x);
    }
  }

  // ---------------------------------------------------------------- coverage

  // Every address of the range lies in one of the stream ranges.
  ghost predicate Covered(r: Range, rs: seq<Range>) {
    forall x :: Within(r, x) ==> Covers(rs, x)
  }

  // The indices of the ranges that end at or below an address.
  ghost function Behind(rs: seq<Range>, x: nat): (s: set<nat>) {
    set i | 0 <= i < |rs| && rs[i].top <= x
  }

  // The farthest end of a range that holds x, or x when no range does.
  method Extend(rs: seq<Range>, x: nat) returns (next: nat)
    ensures next >= x && (next == x <==> !Covers(rs, x))
    ensures next > x ==> exists i :: 0 <= i < |rs| && Within(rs[i], x) && rs[i].top == next
    ensures forall i :: 0 <= i < |rs| && Within(rs[i], x) ==> rs[i].top <= next
  {
    next := x;
    var j := 0;
    while j < |rs|
      invariant 0 <= j <= |rs| && next >= x
      invariant next > x ==> exists i :: 0 <= i < j && Within(rs[i], x) && rs[i].top == next
      invariant forall i :: 0 <= i < j && Within(rs[i], x) ==> rs[i].top <= next
    {
      if Within(rs[j], x) && rs[j].top > next {
        next := rs[j].top;
      }
      j := j + 1;
    }
  }

  // The greedy walk answers whether the ranges cover r, for ranges in any order, overlapping or malformed: each
  // pass leaves one more range behind, so as many passes as there are ranges always suffice.
  method WithinStream(r: Range, rs: seq<Range>) returns (ok: bool)
    ensures ok <==> Covered(r, rs)
  {
    var top := r.base;
    if top >= r.top {
      return true;
    }
    var i := 0;
    while i < |rs|
      invariant 0 <= i <= |rs| && r.base <= top < r.top
      invariant forall x :: r.base <= x < top ==> Covers(rs, x)
      invariant |Behind(rs, top)| >= i
    {
      var next := Extend(rs, top);
      if next == top {
        assert Within(r, top);
        return false;
      }
      var k :| 0 <= k < |rs| && Within(rs[k], top) && rs[k].top == next;
      forall x | top <= x < next ensures Covers(rs, x) { assert Within(rs[k], x); }
      if next >= r.top {
        return true;
      }
      LeavesBehind(rs, top, next, k);
      top := next;
      i := i + 1;
    }
    AllBehind(rs, top);
    assert Within(r, top);
    return false;
  }

  lemma LeavesBehind(rs: seq<Range>, x: nat, next: nat, k: nat)
    requires k < |rs| && Within(rs[k], x) && rs[k].top == next
    ensures |Behind(rs, next)| > |Behind(rs, x)|
  {
    assert k !in Behind(rs, x);
    SubsetSize(Behind(rs, x) + {k}, Behind(rs, next));
  }

  lemma AllBehind(rs: seq<Range>, x: nat)
    requires |Behind(rs, x)| >= |rs|
    ensures !Covers(rs, x)
  {
    if i: nat :| i < |rs| && Within(rs[i], x) {
      SubsetSize(Behind(rs, x) + {i}, UpTo(|rs|));
    }
  }

  // ---------------------------------------------------------------- streams

  datatype StreamRanges = StreamRanges(taken: bool, ranges: seq<Range>)

  // One stream alone covers the range.
  ghost predicate InSomeStream(r: Range, ncoh: StreamRanges, coh: StreamRanges) {
    (ncoh.taken && Covered(r, ncoh.ranges)) || (coh.taken && Covered(r, coh.ranges))
  }

  method RangeInStreams(r: Range, ncoh: StreamRanges, coh: StreamRanges) returns (ok: bool)
    ensures ok <==> InSomeStream(r, ncoh, coh)
  {
    if ncoh.taken {
      ok := WithinStream(r, ncoh.ranges);
      if ok {
        return true;
      }
    }
    if coh.taken {
      ok := WithinStream(r, coh.ranges);
      if ok {
        return true;
      }
    }
    return false;
  }

  method RangesInStreams(rs: seq<Range>, ncoh: StreamRanges, coh: StreamRanges) returns (ok: bool)
    ensures ok <==> forall i :: 0 <= i < |rs| ==> InSomeStream(rs[i], ncoh, coh)
  {
    var i := 0;
    while i < |rs|
      invariant 0 <= i <= |rs| && forall k :: 0 <= k < i ==> InSomeStream(rs[k], ncoh, coh)
    {
      var inside := RangeInStreams(rs[i], ncoh, coh);
      if !inside {
        return false;
      }
      i := i + 1;
    }
    return true;
  }
}
