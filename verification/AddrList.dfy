/**
  * The output address list of an unmap: ranges of equally sized blocks.
  */
module AddrList {
  // The largest block count a 4K range descriptor can hold: 10 bits.
  const MAX_COUNT: nat := 1023

  datatype Range = Range(base: nat, cnt: nat)

  // The blocks of n pages that a range names.
  function Blocks(r: Range, n: nat): (s: seq<nat>)
    ensures |s| == r.cnt
    decreases r.cnt
  {
    if r.cnt == 0 then [] else [r.base] + Blocks(Range(r.base + n, r.cnt - 1), n)
  }

  function Expand(rs: seq<Range>, n: nat): (s: seq<nat>) {
    if rs == [] then [] else Blocks(rs[0], n) + Expand(rs[1..], n)
  }

  // Block b continues range r at its bottom or at its top.
  predicate Joins(r: Range, n: nat, b: nat) {
    0 < r.cnt < MAX_COUNT && (b + n == r.base || b == r.base + r.cnt * n)
  }

  function Join(r: Range, n: nat, b: nat): (r': Range)
    requires Joins(r, n, b)
  {
    if b + n == r.base then Range(b, r.cnt + 1) else r.(cnt := r.cnt + 1)
  }

  lemma {:induction false} BlockAt(r: Range, n: nat, i: nat)
    requires i < r.cnt
    ensures Blocks(r, n)[i] == r.base + i * n
    decreases r.cnt
  {
    if i > 0 {
      BlockAt(Range(r.base + n, r.cnt - 1), n, i - 1);
      assert n + (i - 1) * n == i * n;
    }
  }

  lemma {:induction false} BlocksGrow(r: Range, n: nat)
    ensures Blocks(Range(r.base, r.cnt + 1), n) == Blocks(r, n) + [r.base + r.cnt * n]
    decreases r.cnt
  {
    if r.cnt > 0 {
      BlocksGrow(Range(r.base + n, r.cnt - 1), n);
      assert n + (r.cnt - 1) * n == r.cnt * n;
    }
  }

  // Joining a block to a range adds exactly that block.
  lemma JoinAdds(r: Range, n: nat, b: nat)
    requires Joins(r, n, b)
    ensures multiset(Blocks(Join(r, n, b), n)) == multiset(Blocks(r, n)) + multiset{b}
  {
    if b + n == r.base {
      assert Blocks(Join(r, n, b), n) == [b] + Blocks(r, n);
    } else {
      BlocksGrow(r, n);
      assert Blocks(Join(r, n, b), n) == Blocks(r, n) + [b];
    }
  }

  lemma {:induction false} ExpandSplit(rs: seq<Range>, i: nat, n: nat)
    requires i < |rs|
    ensures multiset(Expand(rs, n)) == multiset(Blocks(rs[i], n)) + multiset(Expand(rs[..i] + rs[i + 1..], n))
  {
    if i == 0 {
      assert rs[..0] + rs[1..] == rs[1..];
    } else {
      ExpandSplit(rs[1..], i - 1, n);
      var rest := rs[..i] + rs[i + 1..];
      assert rest[0] == rs[0] && rest[1..] == rs[1..][..i - 1] + rs[1..][i..];
    }
  }

  lemma ExpandUpdate(rs: seq<Range>, i: nat, r: Range, n: nat, b: nat)
    requires i < |rs| && multiset(Blocks(r, n)) == multiset(Blocks(rs[i], n)) + multiset{b}
    ensures multiset(Expand(rs[i := r], n)) == multiset(Expand(rs, n)) + multiset{b}
  {
    ExpandSplit(rs, i, n);
    ExpandSplit(rs[i := r], i, n);
    assert rs[i := r][..i] + rs[i := r][i + 1..] == rs[..i] + rs[i + 1..];
  }

  lemma {:induction false} ExpandAppend(rs: seq<Range>, r: Range, n: nat)
    ensures Expand(rs + [r], n) == Expand(rs, n) + Blocks(r, n)
  {
    if rs == [] {
      assert rs + [r] == [r];
    } else {
      assert (rs + [r])[1..] == rs[1..] + [r];
      ExpandAppend(rs[1..], r, n);
    }
  }

  lemma WithoutOne(rs: seq<Range>, i: nat)
    requires i < |rs|
    ensures multiset(rs[..i] + rs[i + 1..]) == multiset(rs) - multiset{rs[i]}
  {
    assert rs == rs[..i] + [rs[i]] + rs[i + 1..];
  }

  lemma SameLength(rs: seq<Range>, rs': seq<Range>)
    requires multiset(rs) == multiset(rs')
    ensures |rs| == |rs'|
  {
    assert |multiset(rs)| == |rs| && |multiset(rs')| == |rs'|;
  }

  // The first range from i on that block b continues, or the number of ranges.
  function FirstJoin(rs: seq<Range>, n: nat, b: nat, i: nat): (k: nat)
    requires i <= |rs|
    ensures i <= k <= |rs| && (k < |rs| ==> Joins(rs[k], n, b))
    ensures forall j :: i <= j < k ==> !Joins(rs[j], n, b)
    decreases |rs| - i
  {
    if i == |rs| || Joins(rs[i], n, b) then i else FirstJoin(rs, n, b, i + 1)
  }

  predicate Fits(rs: seq<Range>, limit: nat, n: nat, b: nat) {
    FirstJoin(rs, n, b, 0) < |rs| || |rs| < limit
  }

  function Added(rs: seq<Range>, n: nat, b: nat): (r: seq<Range>)
    ensures |rs| <= |r| <= |rs| + 1
    ensures (forall i :: 0 <= i < |rs| ==> rs[i].cnt > 0) ==> forall i :: 0 <= i < |r| ==> r[i].cnt > 0
  {
    var k := FirstJoin(rs, n, b, 0);
    if k < |rs| then rs[k := Join(rs[k], n, b)] else rs + [Range(b, 1)]
  }

  // Adding a block adds that block and nothing else.
  lemma AddedAdds(rs: seq<Range>, n: nat, b: nat)
    ensures multiset(Expand(Added(rs, n, b), n)) == multiset(Expand(rs, n)) + multiset{b}
  {
    var k := FirstJoin(rs, n, b, 0);
    if k < |rs| {
      JoinAdds(rs[k], n, b);
      ExpandUpdate(rs, k, Join(rs[k], n, b), n, b);
    } else {
      ExpandAppend(rs, Range(b, 1), n);
      assert Blocks(Range(b, 1), n) == [b];
    }
  }

  // The list made by adding blocks one after the other.
  function AddAll(bs: seq<nat>, n: nat): (rs: seq<Range>) {
    if bs == [] then [] else Added(AddAll(bs[..|bs| - 1], n), n, bs[|bs| - 1])
  }

  lemma AddAllNext(bs: seq<nat>, b: nat, n: nat)
    ensures AddAll(bs + [b], n) == Added(AddAll(bs, n), n, b)
  {
    assert (bs + [b])[..|bs|] == bs;
  }

  // The list names exactly the blocks that were added, each as often as it was added.
  lemma {:induction false} AddAllNames(bs: seq<nat>, n: nat)
    ensures multiset(Expand(AddAll(bs, n), n)) == multiset(bs)
  {
    if bs != [] {
      var front, b := bs[..|bs| - 1], bs[|bs| - 1];
      AddAllNames(front, n);
      AddedAdds(AddAll(front, n), n, b);
      assert bs == front + [b];
    }
  }

  // The order of the ranges does not matter to what they name.
  lemma {:induction false} ExpandPermuted(rs: seq<Range>, rs': seq<Range>, n: nat)
    requires multiset(rs) == multiset(rs')
    ensures multiset(Expand(rs, n)) == multiset(Expand(rs', n))
    decreases |rs|
  {
    SameLength(rs, rs');
    if rs != [] {
      assert rs[0] in multiset(rs);
      var i :| 0 <= i < |rs'| && rs'[i] == rs[0];
      WithoutOne(rs, 0);
      WithoutOne(rs', i);
      assert rs[..0] + rs[1..] == rs[1..];
      ExpandPermuted(rs[1..], rs'[..i] + rs'[i + 1..], n);
      ExpandSplit(rs', i, n);
    }
  }

  ghost predicate Sorted(rs: seq<Range>) {
    forall i, j :: 0 <= i < j < |rs| ==> rs[i].base <= rs[j].base
  }

  class List {
    var ranges: seq<Range>
    const limit: nat
    const size: nat

    ghost predicate Valid()
      reads this
    {
      limit > 0 && size > 0 && |ranges| <= limit && forall i :: 0 <= i < |ranges| ==> ranges[i].cnt > 0
    }

    // The blocks the list names, in the order in which they are drained.
    ghost function Contents(): (s: seq<nat>)
      reads this
    {
      Expand(ranges, size)
    }

    lemma ContentsIs()
      ensures Contents() == Expand(ranges, size)
    {
    }

    constructor (limit: nat, size: nat)
      requires limit > 0 && size > 0
      ensures Valid() && ranges == [] && this.limit == limit && this.size == size
    {
      this.limit := limit;
      this.size := size;
      ranges := [];
    }

    // Adds one block, to the first range it continues or else as a new range.
    method Add(b: nat) returns (ok: bool)
      requires Valid()
      modifies this
      ensures Valid()
      ensures ok <==> b % size == 0 && Fits(old(ranges), limit, size, b)
      ensures ok ==> ranges == Added(old(ranges), size, b)
      ensures !ok ==> ranges == old(ranges)
    {
      if b % size != 0 {
        return false;
      }
      var i := 0;
      while i < |ranges| && !Joins(ranges[i], size, b)
        invariant 0 <= i <= |ranges| && ranges == old(ranges)
        invariant FirstJoin(ranges, size, b, i) == FirstJoin(ranges, size, b, 0)
      {
        i := i + 1;
      }
      if i == |ranges| && i == limit {
        return false;
      }
      ranges := Added(ranges, size, b);
      ok := true;
    }

    // Insertion sort by ascending base address.
    method SortByAddr()
      requires Valid()
      modifies this
      ensures Valid() && Sorted(ranges) && multiset(ranges) == multiset(old(ranges)) && |ranges| == |old(ranges)|
      ensures multiset(Contents()) == multiset(old(Contents()))
    {
      var i := 1;
      while i < |ranges|
        invariant 1 <= i && Sorted(ranges[..if i <= |ranges| then i else |ranges|])
        invariant multiset(ranges) == multiset(old(ranges))
      {
        ranges := Insert(ranges, i);
        i := i + 1;
      }
      assert |ranges| <= i ==> ranges[..|ranges|] == ranges;
      PermutedCounts(old(ranges), ranges);
      ExpandPermuted(old(ranges), ranges, size);
    }

    // Moves element i down past every larger one in the sorted prefix before it.
    static method Insert(rs: seq<Range>, i: nat) returns (out: seq<Range>)
      requires i < |rs| && Sorted(rs[..i])
      ensures |out| == |rs| && multiset(out) == multiset(rs) && Sorted(out[..i + 1])
    {
      var j := i;
      out := rs;
      while j > 0 && out[j - 1].base > out[j].base
        invariant 0 <= j <= i && |out| == |rs|
        invariant multiset(out) == multiset(rs)
        invariant forall k, m :: 0 <= k < m <= i && m != j ==> out[k].base <= out[m].base
      {
        Swapped(out, j - 1, j);
        SwapKeepsOrder(out, i, j);
        out := out[j - 1 := out[j]][j := out[j - 1]];
        j := j - 1;
      }
    }

    // Moving the element at j one place down leaves the others in order.
    static lemma SwapKeepsOrder(rs: seq<Range>, i: nat, j: nat)
      requires 0 < j <= i < |rs| && rs[j - 1].base > rs[j].base
      requires forall k, m :: 0 <= k < m <= i && m != j ==> rs[k].base <= rs[m].base
      ensures var out := rs[j - 1 := rs[j]][j := rs[j - 1]];
              forall k, m :: 0 <= k < m <= i && m != j - 1 ==> out[k].base <= out[m].base
    {
    }

    static lemma Swapped(rs: seq<Range>, i: nat, j: nat)
      requires i < j < |rs|
      ensures multiset(rs[i := rs[j]][j := rs[i]]) == multiset(rs)
    {
      assert rs == rs[..i] + [rs[i]] + rs[i + 1..j] + [rs[j]] + rs[j + 1..];
      assert rs[i := rs[j]][j := rs[i]] == rs[..i] + [rs[j]] + rs[i + 1..j] + [rs[i]] + rs[j + 1..];
    }

    static lemma PermutedCounts(rs: seq<Range>, rs': seq<Range>)
      requires multiset(rs) == multiset(rs') && forall i :: 0 <= i < |rs| ==> rs[i].cnt > 0
      ensures |rs| == |rs'| && forall i :: 0 <= i < |rs'| ==> rs'[i].cnt > 0
    {
      SameLength(rs, rs');
      forall i | 0 <= i < |rs'|
        ensures rs'[i].cnt > 0
      {
        assert rs'[i] in multiset(rs');
        assert rs'[i] in multiset(rs);
      }
    }
  }
}
