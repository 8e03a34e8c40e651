/**
  * The slots in which a PDEV records the address ranges of its VDEVs.
  */
module VdevSlots {
  import opened Basics
  import opened VdevRanges

  datatype Slot = Slot(active: bool, ranges: seq<Range>)

  const FREE := Slot(false, [])

  datatype Pick = Found(slot: nat) | NoSlot

  // ---------------------------------------------------------------- a flat table

  ghost predicate RangesSorted(slots: seq<Slot>) {
    forall i :: 0 <= i < |slots| ==> Sorted(slots[i].ranges)
  }

  // Active slots share no address.
  ghost predicate Disjoint(slots: seq<Slot>) {
    forall i, j :: 0 <= i < j < |slots| && slots[i].active && slots[j].active ==> !Share(slots[i].ranges, slots[j].ranges)
  }

  // Some active slot shares an address with the ranges.
  ghost predicate Clash(slots: seq<Slot>, rs: seq<Range>) {
    exists i :: 0 <= i < |slots| && slots[i].active && Share(slots[i].ranges, rs)
  }

  function ActiveCount(slots: seq<Slot>): (n: nat)
    ensures n <= |slots|
  {
    if slots == [] then 0 else ActiveCount(slots[..|slots| - 1]) + (if slots[|slots| - 1].active then 1 else 0)
  }

  lemma {:induction false} CountUpdate(slots: seq<Slot>, i: nat, x: Slot)
    requires i < |slots|
    ensures ActiveCount(slots[i := x]) == ActiveCount(slots) + (if x.active then 1 else 0) - (if slots[i].active then 1 else 0)
  {
    var n := |slots| - 1;
    if i == n {
      assert slots[i := x][..n] == slots[..n];
    } else {
      CountUpdate(slots[..n], i, x);
      assert slots[i := x][..n] == slots[..n][i := x];
    }
  }

  // All slots are active exactly when the count is the size of the table.
  lemma {:induction false} FullCount(slots: seq<Slot>)
    ensures ActiveCount(slots) == |slots| <==> forall i :: 0 <= i < |slots| ==> slots[i].active
  {
    if slots != [] {
      var n := |slots| - 1;
      FullCount(slots[..n]);
      assert forall i :: 0 <= i < n ==> slots[..n][i] == slots[i];
    }
  }

  lemma SomeFree(slots: seq<Slot>)
    requires ActiveCount(slots) < |slots|
    ensures exists i :: 0 <= i < |slots| && !slots[i].active
  {
    FullCount(slots);
  }

  lemma SetKeepsDisjoint(slots: seq<Slot>, i: nat, rs: seq<Range>)
    requires i < |slots| && Disjoint(slots) && !Clash(slots, rs)
    ensures Disjoint(slots[i := Slot(true, rs)])
  {
    forall k | 0 <= k < |slots| && slots[k].active
      ensures !Share(slots[k].ranges, rs) && !Share(rs, slots[k].ranges)
    {
      ShareSymmetric(slots[k].ranges, rs);
    }
  }

  // ---------------------------------------------------------------- pages

  function PageCount(per: nat, max: nat): (n: nat)
    requires per > 0
  {
    (max + per - 1) / per
  }

  function PageNo(per: nat, k: nat): (p: nat)
    requires per > 0
  {
    k / per
  }

  function SlotNo(per: nat, k: nat): (i: nat)
    requires per > 0
    ensures i < per
  {
    k % per
  }

  // The flat index of the first slot of a page.
  function Start(per: nat, p: nat): (k: nat) {
    per * p
  }

  lemma Place(per: nat, max: nat, k: nat)
    requires per > 0 && k < max
    ensures PageNo(per, k) < PageCount(per, max) && k == Start(per, PageNo(per, k)) + SlotNo(per, k)
  {
    var p, n := k / per, (max + per - 1) / per;
    assert k == per * p + k % per && max + per - 1 == per * n + (max + per - 1) % per;
    if p >= n {
      MulLe(n, p, per);
    }
  }

  lemma PlaceOf(per: nat, p: nat, i: nat)
    requires i < per
    ensures PageNo(per, Start(per, p) + i) == p && SlotNo(per, Start(per, p) + i) == i
  {
    var k := per * p + i;
    QuotientIs(k, per, p);
    assert k == per * (k / per) + k % per;
  }

  lemma PageStart(per: nat, max: nat, p: nat)
    requires per > 0 && p < PageCount(per, max)
    ensures Start(per, p) < max
  {
    var n := (max + per - 1) / per;
    assert max + per - 1 == per * n + (max + per - 1) % per;
    MulLe(p + 1, n, per);
    assert (p + 1) * per == per * p + per;
  }

  lemma NextStart(per: nat, p: nat)
    ensures Start(per, p + 1) == Start(per, p) + per
  {
  }

  lemma PagesCover(per: nat, max: nat)
    requires per > 0
    ensures Start(per, 0) == 0 && max <= Start(per, PageCount(per, max))
  {
    var n := (max + per - 1) / per;
    assert max + per - 1 == per * n + (max + per - 1) % per;
  }

  predicate IsPaged(pages: seq<seq<Slot>>, per: nat, max: nat) {
    per > 0 && |pages| == PageCount(per, max) && forall p :: 0 <= p < |pages| ==> |pages[p]| == per
  }

  // The slots in use, one page after another.
  function Flatten(pages: seq<seq<Slot>>, per: nat, max: nat): (slots: seq<Slot>)
    requires IsPaged(pages, per, max)
    ensures |slots| == max
  {
    seq(max, k requires 0 <= k < max => Place(per, max, k); pages[PageNo(per, k)][SlotNo(per, k)])
  }

  // ---------------------------------------------------------------- the paged table

  // Auxiliary granules hold `per` slots each; the last one may be used in part.
  class SlotTable {
    const per: nat
    const max: nat
    var pages: seq<seq<Slot>>
    var num: nat

    ghost predicate Shaped()
      reads this
    {
      IsPaged(pages, per, max)
    }

    ghost function Flat(): (slots: seq<Slot>)
      requires Shaped()
      reads this
      ensures |slots| == max
    {
      Flatten(pages, per, max)
    }

    ghost predicate Valid()
      reads this
    {
      Shaped() && RangesSorted(Flat()) && Disjoint(Flat()) && num == ActiveCount(Flat())
    }

    constructor (slotsPerPage: nat, maxNumVdevs: nat)
      requires slotsPerPage > 0
      ensures Valid() && per == slotsPerPage && max == maxNumVdevs && num == 0
      ensures Flat() == seq(max, k => FREE)
    {
      per := slotsPerPage;
      max := maxNumVdevs;
      num := 0;
      pages := seq(PageCount(slotsPerPage, maxNumVdevs), p => seq(slotsPerPage, i => FREE));
      new;
      hide PageCount, PageNo, SlotNo, Start;
      forall k | 0 <= k < max ensures Flat()[k] == FREE { Place(per, max, k); }
      AllFree(Flat());
    }

    // The number of slots in use on a page.
    function OnPage(p: nat): (n: nat)
      requires Shaped() && p < |pages|
      reads this
      ensures 0 < n <= per && Start(per, p) + n <= max
      ensures n == per || Start(per, p) + n == max
    {
      PageStart(per, max, p);
      if max - Start(per, p) < per then max - Start(per, p) else per
    }

    lemma AtPage(p: nat, i: nat)
      requires Shaped() && p < |pages| && i < OnPage(p)
      ensures Flat()[Start(per, p) + i] == pages[p][i]
    {
      PlaceOf(per, p, i);
    }

    method FindFree() returns (r: Pick)
      requires Shaped()
      ensures r.Found? ==> r.slot < max && !Flat()[r.slot].active && forall k :: 0 <= k < r.slot ==> Flat()[k].active
      ensures r.NoSlot? ==> forall k :: 0 <= k < max ==> Flat()[k].active
    {
      hide Start, PageNo, SlotNo, PageCount;
      PagesCover(per, max);
      var p := 0;
      while p < |pages|
        invariant 0 <= p <= |pages|
        invariant forall k :: 0 <= k < Start(per, p) && k < max ==> Flat()[k].active
      {
        var count := OnPage(p);
        var i := 0;
        while i < count
          invariant 0 <= i <= count
          invariant forall k :: 0 <= k < Start(per, p) + i && k < max ==> Flat()[k].active
        {
          AtPage(p, i);
          if !pages[p][i].active {
            return Found(Start(per, p) + i);
          }
          i := i + 1;
        }
        NextStart(per, p);
        p := p + 1;
      }
      return NoSlot;
    }

    method Overlap(rs: seq<Range>) returns (hit: bool)
      requires Shaped() && RangesSorted(Flat()) && Sorted(rs)
      ensures hit <==> Clash(Flat(), rs)
    {
      hide Start, PageNo, SlotNo, PageCount;
      PagesCover(per, max);
      var p := 0;
      while p < |pages|
        invariant 0 <= p <= |pages|
        invariant forall k :: 0 <= k < Start(per, p) && k < max && Flat()[k].active ==> !Share(Flat()[k].ranges, rs)
      {
        var count := OnPage(p);
        var i := 0;
        while i < count
          invariant 0 <= i <= count
          invariant forall k :: 0 <= k < Start(per, p) + i && k < max && Flat()[k].active ==> !Share(Flat()[k].ranges, rs)
        {
          AtPage(p, i);
          if pages[p][i].active {
            hit := RangesOverlap(pages[p][i].ranges, rs);
            if hit {
              return true;
            }
          }
          i := i + 1;
        }
        NextStart(per, p);
        p := p + 1;
      }
      return false;
    }

    method Write(k: nat, x: Slot)
      requires Shaped() && k < max
      modifies this`pages
      ensures Shaped() && Flat() == old(Flat())[k := x]
    {
      hide Start, PageNo, SlotNo, PageCount;
      Place(per, max, k);
      ghost var was := Flat();
      var p, i := PageNo(per, k), SlotNo(per, k);
      pages := pages[p := pages[p][i := x]];
      forall j | 0 <= j < max
        ensures Flat()[j] == was[k := x][j]
      {
        Place(per, max, j);
      }
    }

    // RMI_VDEV_CREATE: the ranges go to the first free slot unless the table is full or they clash. A table that
    // is not full always has one.
    method Reserve(rs: seq<Range>) returns (r: Pick)
      requires Valid() && Sorted(rs)
      modifies this
      ensures Valid()
      ensures r.Found? <==> old(num) < max && !Clash(old(Flat()), rs)
      ensures r.Found? ==> r.slot < max && !old(Flat())[r.slot].active && num == old(num) + 1
                           && Flat() == old(Flat())[r.slot := Slot(true, rs)]
      ensures r.NoSlot? ==> num == old(num) && Flat() == old(Flat())
    {
      hide IsPaged, Flatten, ActiveCount;
      if max == num {
        return NoSlot;
      }
      var clash := Overlap(rs);
      if clash {
        return NoSlot;
      }
      SomeFree(Flat());
      r := FindFree();
      CountUpdate(Flat(), r.slot, Slot(true, rs));
      SetKeepsDisjoint(Flat(), r.slot, rs);
      Write(r.slot, Slot(true, rs));
      num := num + 1;
    }

    // RMI_VDEV_DESTROY
    method Release(k: nat)
      requires Valid() && k < max && Flat()[k].active
      modifies this
      ensures Valid() && num == old(num) - 1 && Flat() == old(Flat())[k := FREE]
    {
      hide IsPaged, Flatten, ActiveCount;
      CountUpdate(Flat(), k, FREE);
      Write(k, FREE);
      num := num - 1;
    }
  }

  lemma {:induction false} AllFree(slots: seq<Slot>)
    requires forall i :: 0 <= i < |slots| ==> slots[i] == FREE
    ensures ActiveCount(slots) == 0
  {
    if slots != [] {
      AllFree(slots[..|slots| - 1]);
    }
  }
}
