/**
  * How an unmap operation gives back the pages of the blocks it queued.
  */
module UnmapDrain {
  import opened Stage2
  import opened Stage2Steps
  import opened Stage2Inv
  import opened Stage2Tree
  import opened Stage2Own
  import opened Stage2Ops
  import opened UnmapSweep
  import AddrList

  // ---------------------------------------------------------------- blocks without overlap

  predicate Disjoint(x: nat, y: nat, n: nat) {
    x + n <= y || y + n <= x
  }

  ghost predicate Apart(bs: seq<nat>, n: nat) {
    forall i, j :: 0 <= i < j < |bs| ==> Disjoint(bs[i], bs[j], n)
  }

  lemma {:induction false} Twice(bs: seq<nat>, v: nat) returns (i: nat, j: nat)
    requires multiset(bs)[v] >= 2
    ensures i < j < |bs| && bs[i] == v && bs[j] == v
  {
    var last := |bs| - 1;
    assert bs == bs[..last] + [bs[last]];
    if bs[last] == v {
      assert v in multiset(bs[..last]);
      i :| 0 <= i < last && bs[..last][i] == v;
      j := last;
    } else {
      i, j := Twice(bs[..last], v);
    }
  }

  // Whether blocks overlap does not depend on their order.
  lemma ApartPermuted(bs: seq<nat>, cs: seq<nat>, n: nat)
    requires Apart(bs, n) && multiset(bs) == multiset(cs) && n > 0
    ensures Apart(cs, n)
  {
    forall i, j | 0 <= i < j < |cs|
      ensures Disjoint(cs[i], cs[j], n)
    {
      PairApart(bs, cs, n, i, j);
    }
  }

  lemma PairApart(bs: seq<nat>, cs: seq<nat>, n: nat, i: nat, j: nat)
    requires Apart(bs, n) && multiset(bs) == multiset(cs) && n > 0 && i < j < |cs|
    ensures Disjoint(cs[i], cs[j], n)
  {
    if cs[i] == cs[j] {
      assert cs == cs[..i] + [cs[i]] + cs[i + 1..j] + [cs[j]] + cs[j + 1..];
      assert multiset(cs)[cs[i]] >= 2;
      var a, b := Twice(bs, cs[i]);
      assert Disjoint(bs[a], bs[b], n);
    } else {
      assert cs[i] in multiset(cs) && cs[j] in multiset(cs);
      assert cs[i] in multiset(bs) && cs[j] in multiset(bs);
      var a :| 0 <= a < |bs| && bs[a] == cs[i];
      var b :| 0 <= b < |bs| && bs[b] == cs[j];
      assert if a < b then Disjoint(bs[a], bs[b], n) else Disjoint(bs[b], bs[a], n);
    }
  }

  lemma HoldsPermuted(owned: set<nat>, bs: seq<nat>, cs: seq<nat>, n: nat)
    requires Holds(owned, bs, n) && multiset(bs) == multiset(cs)
    ensures Holds(owned, cs, n)
  {
    forall p
      ensures p in owned <==> exists i :: 0 <= i < |cs| && Within(cs[i], n, p)
    {
      if p in owned {
        var i :| 0 <= i < |bs| && Within(bs[i], n, p);
        assert bs[i] in multiset(cs);
        var j :| 0 <= j < |cs| && cs[j] == bs[i];
      }
      if j :| 0 <= j < |cs| && Within(cs[j], n, p) {
        assert cs[j] in multiset(bs);
        var i :| 0 <= i < |bs| && bs[i] == cs[j];
      }
    }
  }

  // Every freed address belongs to a live slot.
  lemma {:induction false} FreedFrom(leaf: map<Path, Leaf>, t: Path, i: nat, j: nat, a: nat) returns (k: nat)
    requires i <= j && a < |Freed(leaf, t, i, j)|
    ensures i <= k < j && Kid(t, k) in leaf && IsLive(leaf[Kid(t, k)].d)
    ensures leaf[Kid(t, k)].d.pa == Freed(leaf, t, i, j)[a]
    decreases j - i
  {
    if a < |Freed(leaf, t, i, j - 1)| {
      k := FreedFrom(leaf, t, i, j - 1, a);
    } else {
      k := j - 1;
    }
  }

  // Two slots never share a page, so the blocks freed by a sweep of protected entries do not overlap.
  lemma SlotsDisjoint(s: St, q: Path, r: Path)
    requires SoleInv(s) && q in s.leaf && r in s.leaf && q != r && |q| == |r|
    requires Backed(s.leaf[q].d) && Backed(s.leaf[r].d)
    ensures Disjoint(s.leaf[q].d.pa, s.leaf[r].d.pa, Pages(s, q))
  {
    var x, y := s.leaf[q].d.pa, s.leaf[r].d.pa;
    var p := if x < y then y else x;
    if !Disjoint(x, y, Pages(s, q)) {
      assert Claims(s, BySlot(q), p) && Claims(s, BySlot(r), p);
    }
  }

  lemma {:induction false} FreedApart(s: St, t: Path, i: nat, j: nat)
    requires SoleInv(s) && i <= j && |t| < s.levels
    requires forall k :: i <= k < j && Kid(t, k) in s.leaf && IsLive(s.leaf[Kid(t, k)].d) ==> Backed(s.leaf[Kid(t, k)].d)
    ensures Apart(Freed(s.leaf, t, i, j), Span(s.levels - |t| - 1))
    decreases j - i
  {
    if i < j {
      FreedApart(s, t, i, j - 1);
      var q, n := Kid(t, j - 1), Span(s.levels - |t| - 1);
      var front := Freed(s.leaf, t, i, j - 1);
      if q in s.leaf && IsLive(s.leaf[q].d) {
        forall a | 0 <= a < |front|
          ensures Disjoint(front[a], s.leaf[q].d.pa, n)
        {
          var k := FreedFrom(s.leaf, t, i, j - 1, a);
          KidOf(t, k);
          KidOf(t, j - 1);
          SlotsDisjoint(s, Kid(t, k), q);
        }
      }
    }
  }

  // ---------------------------------------------------------------- the drain cursor

  // The blocks still to be drained when the cursor is at block b of range d.
  function Rest(rs: seq<AddrList.Range>, n: nat, d: nat, b: nat): (r: seq<nat>) {
    if d < |rs| && b <= rs[d].cnt then AddrList.Blocks(rs[d], n)[b..] + AddrList.Expand(rs[d + 1..], n) else []
  }

  lemma RestAtStart(rs: seq<AddrList.Range>, n: nat)
    ensures Rest(rs, n, 0, 0) == AddrList.Expand(rs, n)
  {
  }

  lemma RestAtEnd(rs: seq<AddrList.Range>, n: nat, d: nat, b: nat)
    requires d >= |rs|
    ensures Rest(rs, n, d, b) == []
  {
  }

  lemma HoldsNothing(owned: set<nat>, n: nat)
    ensures Holds(owned, [], n) <==> owned == {}
  {
  }

  lemma RestNextRange(rs: seq<AddrList.Range>, n: nat, d: nat)
    requires d < |rs|
    ensures Rest(rs, n, d, rs[d].cnt) == Rest(rs, n, d + 1, 0)
  {
    if d + 1 < |rs| {
      assert rs[d + 1..][1..] == rs[d + 2..];
    }
  }

  lemma RestNextBlock(rs: seq<AddrList.Range>, n: nat, d: nat, b: nat)
    requires d < |rs| && b < rs[d].cnt
    ensures Rest(rs, n, d, b) == [rs[d].base + b * n] + Rest(rs, n, d, b + 1)
  {
    AddrList.BlockAt(rs[d], n, b);
    TakeFirst(AddrList.Blocks(rs[d], n), b, AddrList.Expand(rs[d + 1..], n));
  }

  lemma TakeFirst(bs: seq<nat>, b: nat, more: seq<nat>)
    requires b < |bs|
    ensures bs[b..] + more == [bs[b]] + (bs[b + 1..] + more)
  {
  }

  // `owned` is what is left of `blocks` when the first of them has been drained up to page `pa`.
  ghost predicate Left(owned: set<nat>, blocks: seq<nat>, n: nat, pa: nat) {
    && blocks != [] && blocks[0] <= pa <= blocks[0] + n
    && forall p: nat :: p in owned <==>
         (pa <= p < blocks[0] + n || exists i :: 0 < i < |blocks| && Within(blocks[i], n, p))
  }

  lemma LeftStarts(owned: set<nat>, blocks: seq<nat>, n: nat)
    requires Holds(owned, blocks, n) && blocks != []
    ensures Left(owned, blocks, n, blocks[0])
  {
    forall p: nat
      ensures p in owned <==>
                (blocks[0] <= p < blocks[0] + n || exists i :: 0 < i < |blocks| && Within(blocks[i], n, p))
    {
      if blocks[0] <= p < blocks[0] + n {
        assert Within(blocks[0], n, p);
      }
    }
  }

  lemma LeftStep(owned: set<nat>, blocks: seq<nat>, n: nat, pa: nat)
    requires Left(owned, blocks, n, pa) && Apart(blocks, n) && pa < blocks[0] + n
    ensures pa in owned && Left(owned - {pa}, blocks, n, pa + 1)
  {
    forall i | 0 < i < |blocks|
      ensures !Within(blocks[i], n, pa)
    {
      assert Disjoint(blocks[0], blocks[i], n);
    }
  }

  lemma LeftEnds(owned: set<nat>, blocks: seq<nat>, n: nat)
    requires blocks != [] && Left(owned, blocks, n, blocks[0] + n)
    ensures Holds(owned, blocks[1..], n)
  {
    forall p
      ensures p in owned <==> exists i :: 0 <= i < |blocks[1..]| && Within(blocks[1..][i], n, p)
    {
      if i :| 0 < i < |blocks| && Within(blocks[i], n, p) {
        assert blocks[1..][i - 1] == blocks[i];
      }
      if i :| 0 <= i < |blocks[1..]| && Within(blocks[1..][i], n, p) {
        assert blocks[1..][i] == blocks[i + 1];
      }
    }
  }

  lemma ApartTail(blocks: seq<nat>, n: nat)
    requires Apart(blocks, n) && blocks != []
    ensures Apart(blocks[1..], n)
  {
    forall i, j | 0 <= i < j < |blocks[1..]|
      ensures Disjoint(blocks[1..][i], blocks[1..][j], n)
    {
      assert Disjoint(blocks[i + 1], blocks[j + 1], n);
    }
  }

  // ---------------------------------------------------------------- what a drain changes

  // Pages that h owned and owns no longer are DELEGATED; nothing else has changed.
  ghost predicate Returned(s0: St, s: St, h: nat) {
    && IsUnmap(s0, h) && IsUnmap(s, h) && s.ops[h].owned <= s0.ops[h].owned
    && s == s0.(gran := s.gran, ops := s.ops)
    && s.ops == s0.ops[h := s0.ops[h].(owned := s.ops[h].owned, unit := s.ops[h].unit)]
    && s.gran == SetAll(s0.gran, s0.ops[h].owned - s.ops[h].owned, Delegated)
  }

  lemma ReturnedSelf(s: St, h: nat)
    requires IsUnmap(s, h)
    ensures Returned(s, s, h)
  {
    assert s.ops[h].owned - s.ops[h].owned == {};
    assert SetAll(s.gran, {}, Delegated) == s.gran;
    assert s.ops == s.ops[h := s.ops[h]];
  }

  lemma ReturnedTrans(s0: St, s1: St, s2: St, h: nat)
    requires Returned(s0, s1, h) && Returned(s1, s2, h)
    ensures Returned(s0, s2, h)
  {
    var a, b, c := s0.ops[h].owned, s1.ops[h].owned, s2.ops[h].owned;
    assert SetAll(SetAll(s0.gran, a - b, Delegated), b - c, Delegated) == SetAll(s0.gran, a - c, Delegated);
  }

  lemma PageReturned(s: St, h: nat, p: nat)
    requires Inv(s) && UnmapEnabled(s, DrainPage(h, p))
    ensures Returned(s, UnmapStep(s, DrainPage(h, p)), h)
  {
    var r := UnmapStep(s, DrainPage(h, p));
    assert Claims(s, ByOp(h), p);
    assert s.ops[h].owned - r.ops[h].owned == {p};
    assert r.gran == SetAll(s.gran, {p}, Delegated);
  }

  lemma UnitReturned(s: St, h: nat)
    requires UnmapEnabled(s, DrainPublish(h))
    ensures Returned(s, UnmapStep(s, DrainPublish(h)), h)
  {
    assert s.ops[h].owned - {} == s.ops[h].owned;
  }
}
