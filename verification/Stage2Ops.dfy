/**
  * Every action keeps slot markers and stateful operations in step with each other.
  */
module Stage2Ops {
  import opened Stage2
  import opened Stage2Steps
  import opened Stage2Inv
  import opened Stage2Tree
  import opened Stage2Own

  ghost predicate OpOk(s: St, h: nat)
    requires h in s.ops
  {
    if s.ops[h].MapOp? then MapOk(s, h) else UnmapOk(s, h)
  }

  // Operations outside `hs` are the same in both states, and so are the slots they own.
  ghost predicate Undisturbed(s: St, r: St, hs: set<nat>) {
    && r.levels == s.levels && r.coh == s.coh
    && (forall h :: h !in hs ==> (h in r.ops <==> h in s.ops) && (h in s.ops ==> r.ops[h] == s.ops[h]))
    && (forall q :: q in s.leaf && HasMark(s.leaf[q].d) && s.leaf[q].d.mark.handle !in hs ==>
          q in r.leaf && r.leaf[q] == s.leaf[q] && (Slot(s, q) ==> Slot(r, q)))
    && (forall q :: q in r.leaf && HasMark(r.leaf[q].d) && r.leaf[q].d.mark.handle !in hs ==>
          q in s.leaf && r.leaf[q] == s.leaf[q])
  }

  // Pages zeroed by map operations outside `hs` stay zero.
  ghost predicate StillZero(s: St, r: St, hs: set<nat>) {
    forall h, p :: h !in hs && h in s.ops && s.ops[h].MapOp? && Claims(s, ByOp(h), p) && p in s.zero ==> p in r.zero
  }

  lemma OthersKept(s: St, r: St, hs: set<nat>)
    requires OpInv(s) && Undisturbed(s, r, hs) && StillZero(s, r, hs)
    ensures forall h :: h in r.ops && h !in hs ==> OpOk(r, h)
  {
    forall h | h in r.ops && h !in hs
      ensures OpOk(r, h)
    {
      OtherKept(s, r, hs, h);
    }
  }

  lemma OtherKept(s: St, r: St, hs: set<nat>, h: nat)
    requires OpInv(s) && Undisturbed(s, r, hs) && StillZero(s, r, hs)
    requires h in r.ops && h !in hs
    ensures OpOk(r, h)
  {
    assert OpOk(s, h);
    var o := s.ops[h];
    match o
    case MapOp(slot, pa, dev, coh, off, coarse, rollback) =>
      forall p | dev && pa <= p < pa + off
        ensures Coh(r, p) == coh
      {
        assert Coh(s, p) == coh;
      }
      forall p | pa <= p < pa + off && !dev
        ensures p in r.zero
      {
        assert Claims(s, ByOp(h), p);
      }
    case UnmapOp(_, _, swept, _, _, _, _) =>
      forall q | q in swept
        ensures SweptOk(r, h, q)
      {
        assert SweptOk(s, h, q);
      }
      if !o.sync.NoSync? {
        assert SweptOk(s, h, o.sync.at);
      }
  }

  lemma MarksKept(s: St, r: St, hs: set<nat>)
    requires MarkInv(s) && Undisturbed(s, r, hs)
    requires forall q :: q in r.leaf && HasMark(r.leaf[q].d) && r.leaf[q].d.mark.handle in hs ==>
               HoldsMark(r, r.leaf[q].d.mark.handle, q)
    ensures MarkInv(r)
  {
    forall q | q in r.leaf && HasMark(r.leaf[q].d)
      ensures HoldsMark(r, r.leaf[q].d.mark.handle, q)
    {
      if r.leaf[q].d.mark.handle !in hs {
        assert HoldsMark(s, s.leaf[q].d.mark.handle, q);
      }
    }
  }

  // An action that leaves every operation and every marked slot alone.
  lemma NothingMarked(s: St, r: St)
    requires MarkInv(s) && OpInv(s) && Undisturbed(s, r, {}) && StillZero(s, r, {})
    ensures MarkInv(r) && OpInv(r)
  {
    MarksKept(s, r, {});
    OthersKept(s, r, {});
  }

  // ---------------------------------------------------------------- hardware and environment

  // A protected page reached through a cached translation belongs to a slot, or to an unmap that
  // has not begun to return pages.
  lemma CachedPage(s: St, c: Cached, p: nat) returns (o: Owner)
    requires OpInv(s) && TlbInv(s)
    requires c in s.tlb && Valid(c.d) && Backed(c.d) && Within(c.d.pa, Pages(s, c.slot), p)
    ensures Claims(s, o, p)
    ensures o.BySlot? || (o.ByOp? && IsUnmap(s, o.h) && !s.ops[o.h].draining)
  {
    var k: nat :| Justified(s, c, k);
    var q := c.slot[..k];
    if Pending(s, c, q) {
      var h := s.leaf[q].d.mark.handle;
      o := ByOp(h);
      assert OpOk(s, h) && SweptOk(s, h, q);
      assert p in Block(c.d.pa, Pages(s, q));
    } else {
      o := BySlot(q);
    }
  }

  lemma WorldKeepsOps(s: St, a: WorldAct)
    requires MarkInv(s) && OpInv(s) && OwnInv(s) && SoleInv(s) && TlbInv(s) && WorldEnabled(s, a)
    ensures MarkInv(WorldStep(s, a)) && OpInv(WorldStep(s, a))
  {
    var r := WorldStep(s, a);
    if a.RealmWrite? {
      var o := CachedPage(s, a.c, a.p);
    } else if a.Elsewhere? {
      FreeIsUnowned(s, a.p);
    }
    NothingMarked(s, r);
  }

  // ---------------------------------------------------------------- rtt.c

  predicate GrowsOrCuts(a: TreeAct) {
    a.CreateOver? || a.CreateMake? || a.FoldBreak? || a.DestroyBreak?
  }

  // The other commands of rtt.c rewrite one unmarked slot and leave it unmarked.
  ghost predicate OneSlot(s: St, r: St, q: Path) {
    && r.levels == s.levels && r.coh == s.coh && r.ops == s.ops && r.zero == s.zero
    && q in s.leaf && q in r.leaf && r.leaf == s.leaf[q := r.leaf[q]] && r.tbl.Keys == s.tbl.Keys
    && !HasMark(s.leaf[q].d) && !HasMark(r.leaf[q].d)
  }

  lemma SlotActs(s: St, a: TreeAct)
    requires LeafInv(s.leaf) && TreeEnabled(s, a) && !GrowsOrCuts(a)
    ensures OneSlot(s, TreeStep(s, a), a.q) && LeafOk(TreeStep(s, a).leaf[a.q])
  {
  }

  lemma SlotUndisturbed(s: St, r: St, q: Path)
    requires OneSlot(s, r, q)
    ensures Undisturbed(s, r, {}) && StillZero(s, r, {})
  {
  }

  lemma FoldUndisturbed(s: St, q: Path, next: Desc)
    requires TreeInv(s.levels, s.leaf, s.tbl) && q in s.tbl && q != [] && FoldsTo(s, q, next)
    ensures Undisturbed(s, CutTable(s, q, next), {})
  {
    CutUndisturbed(s, q, next);
  }

  lemma DestroyUndisturbed(s: St, q: Path, next: Desc)
    requires TreeInv(s.levels, s.leaf, s.tbl) && CountInv(s.leaf, s.tbl) && q in s.tbl && q != []
    requires s.tbl[q].rc == 0 && Unlocked(s, q)
    ensures Undisturbed(s, CutTable(s, q, next), {})
  {
    ZeroCountIsBare(s, q);
    CutUndisturbed(s, q, next);
  }

  lemma TreeKeepsMarks(s: St, a: TreeAct)
    requires TreeInv(s.levels, s.leaf, s.tbl) && CountInv(s.leaf, s.tbl) && LeafInv(s.leaf) && TreeEnabled(s, a)
    ensures Undisturbed(s, TreeStep(s, a), {})
  {
    hide CountInv, Undisturbed;
    match a
    case CreateOver(q, addr) => PlantUndisturbed(s, q, addr, s.leaf[q].d);
    case CreateMake(q, addr) => PlantUndisturbed(s, q, addr, s.leaf[q].d.fix.was);
    case FoldBreak(q, next) => FoldUndisturbed(s, q, next);
    case DestroyBreak(q, protected) =>
      DestroyUndisturbed(s, q, DestroyedAs(protected));
    case _ =>
      SlotActs(s, a);
      SlotUndisturbed(s, TreeStep(s, a), a.q);
  }

  lemma PlantUndisturbed(s: St, q: Path, addr: nat, d: Desc)
    requires TreeInv(s.levels, s.leaf, s.tbl) && q in s.leaf && |q| < s.levels
    requires !HasMark(s.leaf[q].d) && !HasMark(d)
    ensures Undisturbed(s, PlantTable(s, q, addr, d), {})
  {
    hide Span;
    var r := PlantTable(s, q, addr, d);
    forall x
      ensures x in s.leaf && HasMark(s.leaf[x].d) ==> x in r.leaf && r.leaf[x] == s.leaf[x]
      ensures x in r.leaf && HasMark(r.leaf[x].d) ==> x in s.leaf && r.leaf[x] == s.leaf[x]
    {
      PlantLeaf(s, q, addr, d, x);
    }
  }

  lemma CutUndisturbed(s: St, q: Path, next: Desc)
    requires TreeInv(s.levels, s.leaf, s.tbl) && q in s.tbl && q != []
    requires forall i :: 0 <= i < ENTRIES ==> Kid(q, i) in s.leaf && !HasMark(s.leaf[Kid(q, i)].d)
    ensures Undisturbed(s, CutTable(s, q, next), {})
  {
    var r := CutTable(s, q, next);
    forall x
      ensures x in s.leaf && HasMark(s.leaf[x].d) ==> x in r.leaf && r.leaf[x] == s.leaf[x] && Parent(x) in r.tbl
      ensures x in r.leaf && HasMark(r.leaf[x].d) ==> x in s.leaf && r.leaf[x] == s.leaf[x]
    {
      CutLeaf(s, q, next, x);
      if x in s.leaf {
        OfParent(x);
      }
    }
  }

  lemma TreeKeepsOps(s: St, a: TreeAct)
    requires TreeInv(s.levels, s.leaf, s.tbl) && CountInv(s.leaf, s.tbl) && LeafInv(s.leaf) && TreeEnabled(s, a)
    requires MarkInv(s) && OpInv(s)
    ensures MarkInv(TreeStep(s, a)) && OpInv(TreeStep(s, a))
  {
    TreeKeepsMarks(s, a);
    NothingMarked(s, TreeStep(s, a));
  }

  lemma PlantKeepsLeaves(s: St, q: Path, addr: nat, d: Desc)
    requires TreeInv(s.levels, s.leaf, s.tbl) && LeafInv(s.leaf) && q in s.leaf && |q| < s.levels && Settled(d)
    ensures LeafInv(PlantTable(s, q, addr, d).leaf)
  {
    forall x ensures x in PlantTable(s, q, addr, d).leaf ==> LeafOk(PlantTable(s, q, addr, d).leaf[x]) {
      PlantLeaf(s, q, addr, d, x);
    }
  }

  lemma CutKeepsLeaves(s: St, q: Path, next: Desc)
    requires TreeInv(s.levels, s.leaf, s.tbl) && LeafInv(s.leaf) && q in s.tbl && q != [] && Settled(next)
    ensures LeafInv(CutTable(s, q, next).leaf)
  {
    forall x ensures x in CutTable(s, q, next).leaf ==> LeafOk(CutTable(s, q, next).leaf[x]) {
      CutLeaf(s, q, next, x);
    }
  }

  lemma TreeKeepsLeaves(s: St, a: TreeAct)
    requires TreeInv(s.levels, s.leaf, s.tbl) && LeafInv(s.leaf) && TreeEnabled(s, a)
    ensures LeafInv(TreeStep(s, a).leaf)
  {
    match a
    case CreateOver(q, addr) => PlantKeepsLeaves(s, q, addr, s.leaf[q].d);
    case CreateMake(q, addr) => PlantKeepsLeaves(s, q, addr, s.leaf[q].d.fix.was);
    case FoldBreak(q, next) => CutKeepsLeaves(s, q, next);
    case DestroyBreak(q, protected) => CutKeepsLeaves(s, q, DestroyedAs(protected));
    case _ =>
      SlotActs(s, a);
  }

  // ---------------------------------------------------------------- rtt_map.c

  // An action of operation h alone.
  lemma OneOp(s: St, r: St, h: nat)
    requires MarkInv(s) && OpInv(s) && Undisturbed(s, r, {h}) && StillZero(s, r, {h})
    requires forall q :: q in r.leaf && MarkedBy(r.leaf[q].d, h) ==> HoldsMark(r, h, q)
    requires h in r.ops ==> OpOk(r, h)
    ensures MarkInv(r) && OpInv(r)
  {
    MarksKept(s, r, {h});
    OthersKept(s, r, {h});
  }

  // A map operation owns its slot and nothing else.
  lemma MapMark(s: St, h: nat, q: Path)
    requires MarkInv(s) && q in s.leaf && MarkedBy(s.leaf[q].d, h)
    ensures h in s.ops && (s.ops[h].MapOp? ==> s.ops[h].slot == q) && (s.ops[h].UnmapOp? ==> q in s.ops[h].swept)
  {
    assert HoldsMark(s, h, q);
  }

  lemma StampKeepsOps(s: St, q: Path, h: nat, pa: nat, dev: bool)
    requires MarkInv(s) && OpInv(s) && MapEnabled(s, Stamp(q, h, pa, dev))
    ensures MarkInv(StampStep(s, q, h, pa, dev)) && OpInv(StampStep(s, q, h, pa, dev))
  {
    var r := StampStep(s, q, h, pa, dev);
    forall x | x in r.leaf && MarkedBy(r.leaf[x].d, h)
      ensures HoldsMark(r, h, x)
    {
      if x != q {
        MapMark(s, h, x);
      }
    }
    OneOp(s, r, h);
  }

  lemma PagesKeepOps(s: St, a: MapAct)
    requires MarkInv(s) && OpInv(s) && MapEnabled(s, a)
    requires a.TakePage? || a.TakeWhole? || a.Claim? || a.Zero? || a.Publish? || a.Fail? || a.Undo?
    ensures MarkInv(MapStep(s, a)) && OpInv(MapStep(s, a))
  {
    var r := MapStep(s, a);
    assert OpOk(s, a.h);
    hide OpInv, OpOk, Undisturbed, StillZero;
    forall x | x in r.leaf && MarkedBy(r.leaf[x].d, a.h)
      ensures HoldsMark(r, a.h, x)
    {
      assert HoldsMark(s, a.h, x);
    }
    PagesOk(s, a);
    PagesUndisturbed(s, a);
    OneOp(s, r, a.h);
  }

  lemma PagesUndisturbed(s: St, a: MapAct)
    requires MapEnabled(s, a)
    requires a.TakePage? || a.TakeWhole? || a.Claim? || a.Zero? || a.Publish? || a.Fail? || a.Undo?
    ensures Undisturbed(s, MapStep(s, a), {a.h}) && StillZero(s, MapStep(s, a), {a.h})
  {
    hide Span;
  }

  lemma PagesOk(s: St, a: MapAct)
    requires MapEnabled(s, a)
    requires a.TakePage? || a.TakeWhole? || a.Claim? || a.Zero? || a.Publish? || a.Fail? || a.Undo?
    requires OpOk(s, a.h)
    ensures OpOk(MapStep(s, a), a.h)
  {
    var o, r := s.ops[a.h], MapStep(s, a);
    forall p | o.dev && a.TakePage? && o.pa <= p <= o.pa + o.off
      ensures Coh(r, p) == r.ops[a.h].coh
    {
      assert o.off > 0 && p < o.pa + o.off ==> Coh(s, p) == o.coh;
    }
    forall p | o.dev && !a.TakePage? && o.pa <= p < o.pa + r.ops[a.h].off
      ensures Coh(r, p) == r.ops[a.h].coh
    {
      assert Coh(r, p) == Coh(s, p);
    }
  }

  lemma EndKeepsOps(s: St, a: MapAct)
    requires MarkInv(s) && OpInv(s) && MapEnabled(s, a) && (a.Finish? || a.Undone?)
    ensures MarkInv(MapStep(s, a)) && OpInv(MapStep(s, a))
  {
    var r := MapStep(s, a);
    forall x | x in r.leaf && MarkedBy(r.leaf[x].d, a.h)
      ensures false
    {
      MapMark(s, a.h, x);
    }
    OneOp(s, r, a.h);
  }

  lemma DirectMapKeepsOps(s: St, a: MapAct)
    requires MarkInv(s) && OpInv(s) && OwnInv(s) && MapEnabled(s, a) && (a.MapInit? || a.UnprotMap?)
    ensures MarkInv(MapStep(s, a)) && OpInv(MapStep(s, a))
  {
    if a.MapInit? {
      FreeIsUnowned(s, a.pa);
    }
    NothingMarked(s, MapStep(s, a));
  }

  lemma MapKeepsOps(s: St, a: MapAct)
    requires MarkInv(s) && OpInv(s) && OwnInv(s) && MapEnabled(s, a)
    ensures MarkInv(MapStep(s, a)) && OpInv(MapStep(s, a))
  {
    if a.Stamp? {
      StampKeepsOps(s, a.q, a.h, a.pa, a.dev);
    } else if a.Finish? || a.Undone? {
      EndKeepsOps(s, a);
    } else if a.MapInit? || a.UnprotMap? {
      DirectMapKeepsOps(s, a);
    } else {
      PagesKeepOps(s, a);
    }
  }

  lemma MapKeepsLeaves(s: St, a: MapAct)
    requires LeafInv(s.leaf) && MapEnabled(s, a)
    ensures LeafInv(MapStep(s, a).leaf)
  {
  }

  // ---------------------------------------------------------------- rtt_unmap.c

  lemma SweepKeepsMarks(s: St, h: nat, q: Path, unit: bool, x: Path)
    requires MarkInv(s) && OpInv(s) && UnmapEnabled(s, Sweep(h, q, unit))
    requires x in SweepStep(s, h, q, unit).leaf && MarkedBy(SweepStep(s, h, q, unit).leaf[x].d, h)
    ensures HoldsMark(SweepStep(s, h, q, unit), h, x)
  {
    if x != q {
      MapMark(s, h, x);
    }
  }

  lemma SweepKeepsSwept(s: St, h: nat, q: Path, unit: bool, x: Path)
    requires OpInv(s) && UnmapEnabled(s, Sweep(h, q, unit)) && x in SweepStep(s, h, q, unit).ops[h].swept
    ensures SweptOk(SweepStep(s, h, q, unit), h, x)
  {
    OpAt(s, h);
    hide OpInv;
    if x != q {
      assert SweptOk(s, h, x);
    }
  }

  lemma OpAt(s: St, h: nat)
    requires OpInv(s) && h in s.ops
    ensures OpOk(s, h)
  {
  }

  lemma SweepKeepsOps(s: St, h: nat, q: Path, unit: bool)
    requires MarkInv(s) && OpInv(s) && UnmapEnabled(s, Sweep(h, q, unit))
    ensures MarkInv(SweepStep(s, h, q, unit)) && OpInv(SweepStep(s, h, q, unit))
  {
    var r := SweepStep(s, h, q, unit);
    assert OpOk(s, h);
    forall x | x in r.leaf && MarkedBy(r.leaf[x].d, h)
      ensures HoldsMark(r, h, x)
    {
      SweepKeepsMarks(s, h, q, unit, x);
    }
    forall x | x in r.ops[h].swept
      ensures SweptOk(r, h, x)
    {
      SweepKeepsSwept(s, h, q, unit, x);
    }
    hide OpInv, Undisturbed, StillZero;
    SweepUndisturbed(s, h, q, unit);
    OneOp(s, r, h);
  }

  lemma SweepUndisturbed(s: St, h: nat, q: Path, unit: bool)
    requires MarkInv(s) && UnmapEnabled(s, Sweep(h, q, unit))
    ensures Undisturbed(s, SweepStep(s, h, q, unit), {h}) && StillZero(s, SweepStep(s, h, q, unit), {h})
  {
    hide Span;
  }

  // Steps that keep the slots of h: what they owe and how far they have come.
  lemma StageKeepsOps(s: St, a: UnmapAct)
    requires MarkInv(s) && OpInv(s) && UnmapEnabled(s, a)
    requires a.TlbiIssue? || a.SyncDone? || a.DrainStart? || a.DrainPage? || a.DrainPublish?
    ensures MarkInv(UnmapStep(s, a)) && OpInv(UnmapStep(s, a))
  {
    var r := UnmapStep(s, a);
    StageOk(s, a);
    hide OpInv, OpOk, Undisturbed, StillZero;
    forall x | x in r.leaf && MarkedBy(r.leaf[x].d, a.h)
      ensures HoldsMark(r, a.h, x)
    {
      MapMark(s, a.h, x);
    }
    StageUndisturbed(s, a);
    OneOp(s, r, a.h);
  }

  lemma StageUndisturbed(s: St, a: UnmapAct)
    requires UnmapEnabled(s, a)
    requires a.TlbiIssue? || a.SyncDone? || a.DrainStart? || a.DrainPage? || a.DrainPublish?
    ensures Undisturbed(s, UnmapStep(s, a), {a.h}) && StillZero(s, UnmapStep(s, a), {a.h})
  {
    hide Span;
  }

  lemma StageOk(s: St, a: UnmapAct)
    requires OpInv(s) && UnmapEnabled(s, a)
    requires a.TlbiIssue? || a.SyncDone? || a.DrainStart? || a.DrainPage? || a.DrainPublish?
    ensures a.h in UnmapStep(s, a).ops && OpOk(UnmapStep(s, a), a.h)
  {
    var r := UnmapStep(s, a);
    assert OpOk(s, a.h);
    forall x | x in r.ops[a.h].swept
      ensures SweptOk(r, a.h, x)
    {
      assert SweptOk(s, a.h, x);
    }
  }

  lemma ClearKeepsOps(s: St, h: nat)
    requires MarkInv(s) && OpInv(s) && UnmapEnabled(s, TlbiClear(h))
    ensures MarkInv(TlbiClearStep(s, h)) && OpInv(TlbiClearStep(s, h))
  {
    var r := TlbiClearStep(s, h);
    assert OpOk(s, h);
    forall x | x in r.leaf && MarkedBy(r.leaf[x].d, h)
      ensures HoldsMark(r, h, x)
    {
      MapMark(s, h, x);
    }
    forall x | x in r.ops[h].swept
      ensures SweptOk(r, h, x)
    {
      assert SweptOk(s, h, x);
    }
    hide OpInv, Undisturbed, StillZero;
    ClearUndisturbed(s, h);
    OneOp(s, r, h);
  }

  lemma ClearUndisturbed(s: St, h: nat)
    requires MarkInv(s) && UnmapEnabled(s, TlbiClear(h))
    ensures Undisturbed(s, TlbiClearStep(s, h), {h}) && StillZero(s, TlbiClearStep(s, h), {h})
  {
    hide Span;
  }

  lemma UnmarkKeepsOps(s: St, h: nat, q: Path)
    requires MarkInv(s) && OpInv(s) && UnmapEnabled(s, Unmark(h, q))
    ensures MarkInv(UnmarkStep(s, h, q)) && OpInv(UnmarkStep(s, h, q))
  {
    var r := UnmarkStep(s, h, q);
    assert OpOk(s, h);
    forall x | x in r.leaf && MarkedBy(r.leaf[x].d, h)
      ensures HoldsMark(r, h, x)
    {
      MapMark(s, h, x);
    }
    forall x | x in r.ops[h].swept
      ensures SweptOk(r, h, x)
    {
      assert SweptOk(s, h, x);
    }
    OneOp(s, r, h);
  }

  lemma EdgeKeepsOps(s: St, a: UnmapAct)
    requires MarkInv(s) && OpInv(s) && UnmapEnabled(s, a) && (a.Open? || a.Close?)
    ensures MarkInv(UnmapStep(s, a)) && OpInv(UnmapStep(s, a))
  {
    var r := UnmapStep(s, a);
    forall x | x in r.leaf && MarkedBy(r.leaf[x].d, a.h)
      ensures false
    {
      MapMark(s, a.h, x);
    }
    OneOp(s, r, a.h);
  }

  lemma UnmapKeepsOps(s: St, a: UnmapAct)
    requires MarkInv(s) && OpInv(s) && UnmapEnabled(s, a)
    ensures MarkInv(UnmapStep(s, a)) && OpInv(UnmapStep(s, a))
  {
    if a.Sweep? {
      SweepKeepsOps(s, a.h, a.q, a.unit);
    } else if a.TlbiClear? {
      ClearKeepsOps(s, a.h);
    } else if a.Unmark? {
      UnmarkKeepsOps(s, a.h, a.q);
    } else if a.Open? || a.Close? {
      EdgeKeepsOps(s, a);
    } else {
      StageKeepsOps(s, a);
    }
  }

  lemma UnmapKeepsLeaves(s: St, a: UnmapAct)
    requires LeafInv(s.leaf) && UnmapEnabled(s, a)
    ensures LeafInv(UnmapStep(s, a).leaf)
  {
  }
}
