/**
  * Every action keeps cached translations justified by the tables and by what is still owed.
  */
module Stage2Tlb {
  import opened Basics
  import opened Stage2
  import opened Stage2Steps
  import opened Stage2Inv
  import opened Stage2Tree
  import opened Stage2Own
  import opened Stage2Ops

  // ---------------------------------------------------------------- leaves on one path

  // Everything above a slot or table is a table.
  lemma {:induction false} AboveIsTable(levels: nat, leaf: map<Path, Leaf>, tbl: map<Path, Table>, q: Path, k: nat)
    requires TreeInv(levels, leaf, tbl) && InTree(leaf, tbl, q) && k < |q|
    ensures q[..k] in tbl
    decreases |q|
  {
    assert Parent(q) in tbl;
    if k < |q| - 1 {
      AboveIsTable(levels, leaf, tbl, Parent(q), k);
      assert Parent(q)[..k] == q[..k];
    }
  }

  // At most one leaf lies on a path.
  lemma OneLeaf(levels: nat, leaf: map<Path, Leaf>, tbl: map<Path, Table>, q: Path, j: nat, k: nat)
    requires TreeInv(levels, leaf, tbl) && j <= |q| && k <= |q| && q[..j] in leaf && q[..k] in leaf
    ensures j == k
  {
    if j < k {
      assert q[..k][..j] == q[..j];
      AboveIsTable(levels, leaf, tbl, q[..k], j);
    } else if k < j {
      assert q[..j][..k] == q[..k];
      AboveIsTable(levels, leaf, tbl, q[..j], k);
    }
  }

  // ---------------------------------------------------------------- transporting a justification

  // Slot x is the same in both states, and so is what its unmap operation says about it.
  ghost predicate SameAt(s: St, r: St, x: Path) {
    && r.levels == s.levels && x in s.leaf && x in r.leaf && r.leaf[x] == s.leaf[x]
    && (HasMark(s.leaf[x].d) && IsUnmap(s, s.leaf[x].d.mark.handle) && x in s.ops[s.leaf[x].d.mark.handle].swept ==>
          var h := s.leaf[x].d.mark.handle;
          && IsUnmap(r, h) && x in r.ops[h].swept && r.ops[h].swept[x] == s.ops[h].swept[x]
          && (r.ops[h].sync == s.ops[h].sync || r.ops[h].sync.NoSync? || r.ops[h].sync.at != x))
  }

  lemma Carry(s: St, r: St, c: Cached, k: nat)
    requires Justified(s, c, k) && SameAt(s, r, c.slot[..k])
    ensures Justified(r, c, k)
  {
  }

  // Nothing is cached through slot q when its entry is not valid, not owed and not tlbi-pending.
  predicate Cold(s: St, q: Path) {
    && q in s.leaf && !Valid(s.leaf[q].d) && !s.leaf[q].owes
    && (HasMark(s.leaf[q].d) ==> !s.leaf[q].d.mark.tlbi)
  }

  lemma ColdUnused(s: St, c: Cached, k: nat)
    requires TlbInv(s) && c in s.tlb && Justified(s, c, k)
    ensures !Cold(s, c.slot[..k])
  {
  }

  // An action that only touches cold slots, and forgets nothing another slot relies on.
  lemma ColdWrite(s: St, r: St, q: Path)
    requires TlbInv(s) && r.tlb <= s.tlb && r.levels == s.levels && r.da == s.da && Cold(s, q)
    requires forall x :: x in s.leaf && x != q ==> SameAt(s, r, x)
    ensures TlbInv(r)
  {
    forall c | c in r.tlb
      ensures exists k :: Justified(r, c, k)
    {
      var k: nat :| Justified(s, c, k);
      ColdUnused(s, c, k);
      Carry(s, r, c, k);
    }
  }

  lemma SameSlots(s: St, r: St)
    requires TlbInv(s) && r.tlb <= s.tlb && r.levels == s.levels && r.da == s.da
    requires forall x :: x in s.leaf ==> SameAt(s, r, x)
    ensures TlbInv(r)
  {
    forall c | c in r.tlb
      ensures exists k :: Justified(r, c, k)
    {
      var k: nat :| Justified(s, c, k);
      Carry(s, r, c, k);
    }
  }

  // ---------------------------------------------------------------- hardware

  lemma FillKeepsTlb(s: St, c: Cached)
    requires TreeInv(s.levels, s.leaf, s.tbl) && TlbInv(s) && NestInv(s) && WorldEnabled(s, Fill(c))
    ensures TlbInv(WorldStep(s, Fill(c))) && NestInv(WorldStep(s, Fill(c)))
  {
    var r := WorldStep(s, Fill(c));
    assert c.slot[..|c.slot|] == c.slot;
    assert Justified(r, c, |c.slot|);
    forall b | b in s.tlb
      ensures exists k :: Justified(r, b, k)
      ensures Below(c.slot, b.slot) || Below(b.slot, c.slot) ==> b.slot == c.slot
    {
      var k: nat :| Justified(s, b, k);
      Carry(s, r, b, k);
      if Below(c.slot, b.slot) || Below(b.slot, c.slot) {
        Comparable(s, c, b, k);
      }
    }
  }

  // What is cached on the same path as a valid leaf was read from that leaf.
  lemma Comparable(s: St, c: Cached, b: Cached, k: nat)
    requires TreeInv(s.levels, s.leaf, s.tbl) && Justified(s, b, k)
    requires c.slot in s.leaf && Valid(s.leaf[c.slot].d)
    requires Below(c.slot, b.slot) || Below(b.slot, c.slot)
    ensures b.slot == c.slot
  {
    if Below(c.slot, b.slot) {
      OneLeaf(s.levels, s.leaf, s.tbl, b.slot, |c.slot|, k);
    } else {
      assert c.slot[..k] == b.slot[..k];
      assert c.slot[..|c.slot|] == c.slot;
      OneLeaf(s.levels, s.leaf, s.tbl, c.slot, |c.slot|, k);
    }
  }

  lemma WorldKeepsTlb(s: St, a: WorldAct)
    requires TreeInv(s.levels, s.leaf, s.tbl) && TlbInv(s) && NestInv(s) && WorldEnabled(s, a)
    ensures TlbInv(WorldStep(s, a)) && NestInv(WorldStep(s, a))
  {
    if a.Fill? {
      FillKeepsTlb(s, a.c);
    } else {
      SameSlots(s, WorldStep(s, a));
    }
  }

  // ---------------------------------------------------------------- rtt.c

  lemma InvalidateKeepsTlb(s: St, q: Path)
    requires TlbInv(s) && TreeEnabled(s, Invalidate(q))
    ensures TlbInv(TreeStep(s, Invalidate(q)))
  {
    var r := TreeStep(s, Invalidate(q));
    forall c | c in r.tlb
      ensures exists k :: Justified(r, c, k)
    {
      var k: nat :| Justified(s, c, k);
      assert c.slot[..k] == q ==> Below(q, c.slot);
      Carry(s, r, c, k);
    }
  }

  // Rewriting a valid entry that keeps its pages, with the invalidation owed.
  lemma OwedWrite(s: St, q: Path, l: Leaf, rc: int)
    requires TreeInv(s.levels, s.leaf, s.tbl) && TlbInv(s) && Idle(s, q)
    requires l == s.leaf[q] || (Valid(s.leaf[q].d) ==> l.owes)
    requires Backed(s.leaf[q].d) ==> Backed(Body(l.d)) && Body(l.d).pa == s.leaf[q].d.pa
    ensures TlbInv(WriteLeaf(s, q, l, rc))
  {
    var r := WriteLeaf(s, q, l, rc);
    forall c | c in r.tlb
      ensures exists k :: Justified(r, c, k)
    {
      var k: nat :| Justified(s, c, k);
      if c.slot[..k] != q {
        Carry(s, r, c, k);
      } else {
        assert Justified(r, c, k);
      }
    }
  }

  lemma PlantKeepsTlb(s: St, q: Path, addr: nat, d: Desc)
    requires TreeInv(s.levels, s.leaf, s.tbl) && TlbInv(s) && |q| < s.levels && Cold(s, q)
    ensures TlbInv(PlantTable(s, q, addr, d))
  {
    var r := PlantTable(s, q, addr, d);
    forall x | x in s.leaf && x != q
      ensures SameAt(s, r, x)
    {
      PlantLeaf(s, q, addr, d, x);
    }
    ColdWrite(s, r, q);
  }

  // After a table is cut out, what was cached through its slots is owed by the break above them.
  lemma CutJustifies(s: St, q: Path, next: Desc, c: Cached, k: nat)
    requires TreeInv(s.levels, s.leaf, s.tbl) && TlbInv(s) && q in s.tbl && q != [] && c in s.tlb
    requires Unlocked(s, q) && forall i :: 0 <= i < ENTRIES ==> Kid(q, i) in s.leaf && !HasMark(s.leaf[Kid(q, i)].d)
    requires FoldsTo(s, q, next) || forall i :: 0 <= i < ENTRIES ==> !Backed(s.leaf[Kid(q, i)].d)
    requires Justified(s, c, k)
    ensures exists j :: Justified(CutTable(s, q, next), c, j)
  {
    var r := CutTable(s, q, next);
    var x := c.slot[..k];
    CutLeaf(s, q, next, x);
    if Parent(x) != q {
      assert x != q;
      Carry(s, r, c, k);
    } else {
      OfParent(x);
      assert x == c.slot && Live(s, c, x);
      CutLeaf(s, q, next, q);
      assert c.slot[..k - 1] == q;
      if Backed(c.d) {
        LastPiece(next, Last(x), s.levels - |q| - 1);
      }
      assert Owed(r, c, q);
      assert Justified(r, c, k - 1);
    }
  }

  lemma LastPiece(d: Desc, i: nat, k: nat)
    requires Backed(d) && i < ENTRIES
    ensures d.pa <= Piece(d, i, Span(k)).pa && Piece(d, i, Span(k)).pa + Span(k) <= d.pa + Span(k + 1)
  {
    var n := Span(k);
    MulLe(i + 1, ENTRIES, n);
    assert (i + 1) * n == i * n + n;
  }

  lemma CutKeepsTlb(s: St, q: Path, next: Desc)
    requires TreeInv(s.levels, s.leaf, s.tbl) && TlbInv(s) && q in s.tbl && q != []
    requires Unlocked(s, q) && forall i :: 0 <= i < ENTRIES ==> Kid(q, i) in s.leaf && !HasMark(s.leaf[Kid(q, i)].d)
    requires FoldsTo(s, q, next) || forall i :: 0 <= i < ENTRIES ==> !Backed(s.leaf[Kid(q, i)].d)
    ensures TlbInv(CutTable(s, q, next))
  {
    forall c | c in s.tlb
      ensures exists j :: Justified(CutTable(s, q, next), c, j)
    {
      var k: nat :| Justified(s, c, k);
      CutJustifies(s, q, next, c, k);
    }
  }

  lemma DestroyKeepsTlb(s: St, q: Path, next: Desc)
    requires TreeInv(s.levels, s.leaf, s.tbl) && CountInv(s.leaf, s.tbl) && TlbInv(s)
    requires q in s.tbl && q != [] && s.tbl[q].rc == 0 && Unlocked(s, q)
    ensures TlbInv(CutTable(s, q, next))
  {
    ZeroCountIsBare(s, q);
    CutKeepsTlb(s, q, next);
  }

  lemma SlotKeepsTlb(s: St, a: TreeAct)
    requires TreeInv(s.levels, s.leaf, s.tbl) && TlbInv(s) && TreeEnabled(s, a)
    requires a.CreateBreak? || a.SetRipas? || a.SetAp? || a.DevValidate?
    ensures TlbInv(TreeStep(s, a)) && TreeStep(s, a).tlb == s.tlb
  {
    OwedWrite(s, a.q, TreeStep(s, a).leaf[a.q], 0);
  }

  lemma CutMakeKeepsTlb(s: St, q: Path)
    requires TlbInv(s) && TreeEnabled(s, CutMake(q))
    ensures TlbInv(TreeStep(s, CutMake(q)))
  {
    ColdWrite(s, TreeStep(s, CutMake(q)), q);
  }

  lemma FoldKeepsTlb(s: St, q: Path, next: Desc)
    requires TreeInv(s.levels, s.leaf, s.tbl) && TlbInv(s) && q in s.tbl && q != [] && FoldsTo(s, q, next)
    ensures TlbInv(CutTable(s, q, next))
  {
    CutKeepsTlb(s, q, next);
  }

  lemma TreeKeepsTlb(s: St, a: TreeAct)
    requires TreeInv(s.levels, s.leaf, s.tbl) && CountInv(s.leaf, s.tbl) && TlbInv(s) && TreeEnabled(s, a)
    ensures TlbInv(TreeStep(s, a)) && TreeStep(s, a).tlb <= s.tlb
  {
    match a
    case Invalidate(q) => InvalidateKeepsTlb(s, q);
    case CreateOver(q, addr) => PlantKeepsTlb(s, q, addr, s.leaf[q].d);
    case CreateMake(q, addr) => PlantKeepsTlb(s, q, addr, s.leaf[q].d.fix.was);
    case FoldBreak(q, next) => FoldKeepsTlb(s, q, next);
    case DestroyBreak(q, protected) => DestroyKeepsTlb(s, q, DestroyedAs(protected));
    case CutMake(q) => CutMakeKeepsTlb(s, q);
    case _ => SlotKeepsTlb(s, a);
  }

  // ---------------------------------------------------------------- rtt_map.c

  lemma StampKeepsTlb(s: St, q: Path, h: nat, pa: nat, dev: bool)
    requires TlbInv(s) && OpInv(s) && MapEnabled(s, Stamp(q, h, pa, dev))
    ensures TlbInv(StampStep(s, q, h, pa, dev))
  {
    ColdWrite(s, StampStep(s, q, h, pa, dev), q);
  }

  lemma EndKeepsTlb(s: St, a: MapAct)
    requires TlbInv(s) && OpInv(s) && LeafInv(s.leaf) && MapEnabled(s, a) && (a.Finish? || a.Undone?)
    ensures TlbInv(MapStep(s, a))
  {
    assert OpOk(s, a.h);
    ColdWrite(s, MapStep(s, a), s.ops[a.h].slot);
  }

  lemma DirectMapKeepsTlb(s: St, a: MapAct)
    requires TlbInv(s) && MapEnabled(s, a) && (a.MapInit? || a.UnprotMap?)
    ensures TlbInv(MapStep(s, a))
  {
    ColdWrite(s, MapStep(s, a), a.q);
  }

  lemma PagesKeepTlb(s: St, a: MapAct)
    requires TlbInv(s) && MapEnabled(s, a)
    requires a.TakePage? || a.TakeWhole? || a.Claim? || a.Zero? || a.Publish? || a.Fail? || a.Undo?
    ensures TlbInv(MapStep(s, a))
  {
    SameSlots(s, MapStep(s, a));
  }

  lemma MapKeepsTlb(s: St, a: MapAct)
    requires TlbInv(s) && OpInv(s) && LeafInv(s.leaf) && MapEnabled(s, a)
    ensures TlbInv(MapStep(s, a)) && MapStep(s, a).tlb == s.tlb
  {
    if a.Stamp? {
      StampKeepsTlb(s, a.q, a.h, a.pa, a.dev);
    } else if a.Finish? || a.Undone? {
      EndKeepsTlb(s, a);
    } else if a.MapInit? || a.UnprotMap? {
      DirectMapKeepsTlb(s, a);
    } else {
      PagesKeepTlb(s, a);
    }
  }

  // ---------------------------------------------------------------- rtt_unmap.c

  lemma SweepKeepsTlb(s: St, h: nat, q: Path, unit: bool)
    requires TlbInv(s) && MarkInv(s) && OpInv(s) && UnmapEnabled(s, Sweep(h, q, unit))
    ensures TlbInv(SweepStep(s, h, q, unit))
  {
    var r := SweepStep(s, h, q, unit);
    assert OpOk(s, h);
    forall c | c in r.tlb
      ensures exists k :: Justified(r, c, k)
    {
      var k: nat :| Justified(s, c, k);
      if c.slot[..k] != q {
        Carry(s, r, c, k);
      } else {
        assert Live(s, c, q);
        assert Pending(r, c, q);
        assert Justified(r, c, k);
      }
    }
  }

  // Nothing at all is cached for a tlbi-pending slot once its invalidation has completed.
  lemma InvalidatedIsGone(s: St, h: nat, c: Cached)
    requires TreeInv(s.levels, s.leaf, s.tbl) && LeafInv(s.leaf) && TlbInv(s) && OpInv(s)
    requires IsUnmap(s, h) && !s.ops[h].sync.NoSync? && c in s.tlb && c.slot == s.ops[h].sync.at
    ensures s.ops[h].sync.Waiting? && c.agent == Smmu
  {
    assert OpOk(s, h);
    var q := c.slot;
    assert SweptOk(s, h, q);
    var k: nat :| Justified(s, c, k);
    assert q[..|q|] == q;
    OneLeaf(s.levels, s.leaf, s.tbl, q, k, |q|);
  }

  lemma IssueKeepsTlb(s: St, h: nat, q: Path)
    requires TlbInv(s) && UnmapEnabled(s, TlbiIssue(h, q))
    ensures TlbInv(UnmapStep(s, TlbiIssue(h, q)))
  {
    var r := UnmapStep(s, TlbiIssue(h, q));
    forall c | c in r.tlb
      ensures exists k :: Justified(r, c, k)
    {
      var k: nat :| Justified(s, c, k);
      if c.slot[..k] != q {
        Carry(s, r, c, k);
      } else {
        assert Justified(r, c, k);
      }
    }
  }

  lemma SyncKeepsTlb(s: St, h: nat)
    requires TreeInv(s.levels, s.leaf, s.tbl) && LeafInv(s.leaf) && TlbInv(s) && OpInv(s)
    requires UnmapEnabled(s, SyncDone(h))
    ensures TlbInv(UnmapStep(s, SyncDone(h)))
  {
    var r := UnmapStep(s, SyncDone(h));
    var q := s.ops[h].sync.at;
    assert OpOk(s, h) && SweptOk(s, h, q);
    hide OpInv, OpOk;
    forall c | c in r.tlb
      ensures exists k :: Justified(r, c, k)
    {
      if c.slot == q {
        InvalidatedIsGone(s, h, c);
      }
      var k: nat :| Justified(s, c, k);
      Carry(s, r, c, k);
    }
  }

  lemma ClearKeepsTlb(s: St, h: nat)
    requires TreeInv(s.levels, s.leaf, s.tbl) && LeafInv(s.leaf) && TlbInv(s) && OpInv(s)
    requires UnmapEnabled(s, TlbiClear(h))
    ensures TlbInv(TlbiClearStep(s, h))
  {
    var r := TlbiClearStep(s, h);
    var q := s.ops[h].sync.at;
    forall c | c in r.tlb
      ensures exists k :: Justified(r, c, k)
    {
      if c.slot == q {
        InvalidatedIsGone(s, h, c);
      }
      var k: nat :| Justified(s, c, k);
      Carry(s, r, c, k);
    }
  }

  lemma StageKeepsTlb(s: St, a: UnmapAct)
    requires TlbInv(s) && UnmapEnabled(s, a)
    requires a.Open? || a.DrainStart? || a.DrainPage? || a.DrainPublish? || a.Close?
    ensures TlbInv(UnmapStep(s, a))
  {
    SameSlots(s, UnmapStep(s, a));
  }

  lemma UnmarkKeepsTlb(s: St, h: nat, q: Path)
    requires TlbInv(s) && OpInv(s) && LeafInv(s.leaf) && UnmapEnabled(s, Unmark(h, q))
    ensures TlbInv(UnmarkStep(s, h, q))
  {
    assert OpOk(s, h) && SweptOk(s, h, q);
    ColdWrite(s, UnmarkStep(s, h, q), q);
  }

  lemma UnmapKeepsTlb(s: St, a: UnmapAct)
    requires TreeInv(s.levels, s.leaf, s.tbl) && LeafInv(s.leaf) && TlbInv(s) && MarkInv(s) && OpInv(s)
    requires UnmapEnabled(s, a)
    ensures TlbInv(UnmapStep(s, a)) && UnmapStep(s, a).tlb <= s.tlb
  {
    match a
    case Sweep(h, q, unit) => SweepKeepsTlb(s, h, q, unit);
    case TlbiIssue(h, q) => IssueKeepsTlb(s, h, q);
    case SyncDone(h) => SyncKeepsTlb(s, h);
    case TlbiClear(h) => ClearKeepsTlb(s, h);
    case Unmark(h, q) => UnmarkKeepsTlb(s, h, q);
    case _ => StageKeepsTlb(s, a);
  }
}
