/**
  * Every action keeps the tables a tree and every reference count exact.
  */
module Stage2Tree {
  import opened Stage2
  import opened Stage2Steps
  import opened Stage2Inv

  lemma KidOf(t: Path, i: nat)
    ensures Kid(t, i) != [] && Parent(Kid(t, i)) == t && Last(Kid(t, i)) == i
  {
  }

  lemma OfParent(q: Path)
    requires q != []
    ensures Kid(Parent(q), Last(q)) == q
  {
  }

  // ---------------------------------------------------------------- counting

  lemma {:induction false} CountSame(leaf: map<Path, Leaf>, tbl: map<Path, Table>,
                                     leaf': map<Path, Leaf>, tbl': map<Path, Table>, t: Path, n: nat)
    requires forall i :: 0 <= i < n ==> Counts(leaf, tbl, Kid(t, i)) == Counts(leaf', tbl', Kid(t, i))
    ensures CountUpTo(leaf, tbl, t, n) == CountUpTo(leaf', tbl', t, n)
  {
    if n > 0 {
      CountSame(leaf, tbl, leaf', tbl', t, n - 1);
    }
  }

  // Changing one slot moves the count by the change of that slot.
  lemma {:induction false} CountOne(leaf: map<Path, Leaf>, tbl: map<Path, Table>,
                                    leaf': map<Path, Leaf>, tbl': map<Path, Table>, t: Path, k: nat, n: nat)
    requires k < n
    requires forall i :: 0 <= i < n && i != k ==> Counts(leaf, tbl, Kid(t, i)) == Counts(leaf', tbl', Kid(t, i))
    ensures CountUpTo(leaf', tbl', t, n) + Weight(Counts(leaf, tbl, Kid(t, k)))
         == CountUpTo(leaf, tbl, t, n) + Weight(Counts(leaf', tbl', Kid(t, k)))
  {
    if k == n - 1 {
      CountSame(leaf, tbl, leaf', tbl', t, k);
    } else {
      CountOne(leaf, tbl, leaf', tbl', t, k, n - 1);
    }
  }

  lemma {:induction false} CountAll(leaf: map<Path, Leaf>, tbl: map<Path, Table>, t: Path, n: nat, b: bool)
    requires forall i :: 0 <= i < n ==> Counts(leaf, tbl, Kid(t, i)) == b
    ensures CountUpTo(leaf, tbl, t, n) == n * Weight(b)
  {
    if n > 0 {
      CountAll(leaf, tbl, t, n - 1, b);
    }
  }

  // A count of zero means that no slot counts, a full count that every slot does.
  lemma {:induction false} CountExtremes(leaf: map<Path, Leaf>, tbl: map<Path, Table>, t: Path, n: nat, i: nat)
    requires i < n
    ensures CountUpTo(leaf, tbl, t, n) == 0 ==> !Counts(leaf, tbl, Kid(t, i))
    ensures CountUpTo(leaf, tbl, t, n) == n ==> Counts(leaf, tbl, Kid(t, i))
  {
    if i < n - 1 {
      CountExtremes(leaf, tbl, t, n - 1, i);
    }
  }

  // ---------------------------------------------------------------- writing one slot

  lemma WriteKeepsTree(s: St, q: Path, l: Leaf, rc: int)
    requires TreeInv(s.levels, s.leaf, s.tbl) && q in s.leaf
    ensures Slot(s, q) && TreeInv(s.levels, WriteLeaf(s, q, l, rc).leaf, WriteLeaf(s, q, l, rc).tbl)
  {
    var r := WriteLeaf(s, q, l, rc);
    forall t, i | t in r.tbl && 0 <= i < ENTRIES
      ensures InTree(r.leaf, r.tbl, Kid(t, i))
    {
      assert InTree(s.leaf, s.tbl, Kid(t, i));
    }
  }

  lemma WriteKeepsCount(s: St, q: Path, l: Leaf, rc: int)
    requires TreeInv(s.levels, s.leaf, s.tbl) && CountInv(s.leaf, s.tbl) && q in s.leaf
    requires rc == Weight(CountsDesc(l.d)) - Weight(CountsDesc(s.leaf[q].d))
    ensures CountInv(WriteLeaf(s, q, l, rc).leaf, WriteLeaf(s, q, l, rc).tbl)
  {
    hide CountUpTo;
    var r := WriteLeaf(s, q, l, rc);
    forall t | t in r.tbl
      ensures r.tbl[t].rc == CountUpTo(r.leaf, r.tbl, t, ENTRIES)
    {
      AroundSlot(s, q, r.leaf, r.tbl, t);
    }
  }

  lemma KidsDiffer(q: Path)
    requires q != []
    ensures forall i: nat :: i != Last(q) ==> Kid(Parent(q), i) != q
  {
    forall i: nat | i != Last(q) ensures Kid(Parent(q), i) != q { KidOf(Parent(q), i); }
  }

  // ---------------------------------------------------------------- growing and cutting a table

  lemma KidsOfIff(q: Path, r: Path)
    ensures r in KidsOf(q) <==> r != [] && Parent(r) == q && Last(r) < ENTRIES
  {
    if r != [] && Parent(r) == q && Last(r) < ENTRIES {
      OfParent(r);
    }
    if r in KidsOf(q) {
      var i :| 0 <= i < ENTRIES && r == Kid(q, i);
      KidOf(q, i);
    }
  }

  lemma PlantKeepsTree(s: St, q: Path, addr: nat, d: Desc)
    requires TreeInv(s.levels, s.leaf, s.tbl) && q in s.leaf && |q| < s.levels
    ensures Slot(s, q) && TreeInv(s.levels, PlantTable(s, q, addr, d).leaf, PlantTable(s, q, addr, d).tbl)
  {
    var r := PlantTable(s, q, addr, d);
    forall x ensures x in KidsOf(q) <==> x != [] && Parent(x) == q && Last(x) < ENTRIES { KidsOfIff(q, x); }
    forall t, i | t in r.tbl && 0 <= i < ENTRIES
      ensures InTree(r.leaf, r.tbl, Kid(t, i))
    {
      KidOf(t, i);
      if t != q {
        assert InTree(s.leaf, s.tbl, Kid(t, i));
      }
    }
  }

  // The slots after planting a table at q.
  lemma KidNotThere(s: St, q: Path, x: Path)
    requires TreeInv(s.levels, s.leaf, s.tbl) && q in s.leaf && x in KidsOf(q)
    ensures x != [] && Parent(x) == q && Last(x) < ENTRIES && x !in s.leaf
  {
    KidsOfIff(q, x);
    hide KidsOf;
  }

  lemma PlantedAt(s: St, q: Path, addr: nat, d: Desc, x: Path)
    requires q != [] && q in s.leaf && Parent(q) in s.tbl && |q| < s.levels
    ensures var r := PlantTable(s, q, addr, d);
            if x in KidsOf(q) then x in r.leaf && r.leaf[x] == Leaf(Piece(d, Last(x), Span(s.levels - |q| - 1)), false)
            else if x in s.leaf && x != q then x in r.leaf && r.leaf[x] == s.leaf[x]
            else x !in r.leaf
  {
    hide Span, Piece, KidsOf, Parent;
  }

  lemma PlantLeaf(s: St, q: Path, addr: nat, d: Desc, x: Path)
    requires TreeInv(s.levels, s.leaf, s.tbl) && q in s.leaf && |q| < s.levels
    ensures var r := PlantTable(s, q, addr, d);
            if x in KidsOf(q) then
              && x in r.leaf && x != [] && Parent(x) == q && Last(x) < ENTRIES && x !in s.leaf
              && r.leaf[x] == Leaf(Piece(d, Last(x), Span(s.levels - |q| - 1)), false)
            else if x in s.leaf && x != q then x in r.leaf && r.leaf[x] == s.leaf[x]
            else x !in r.leaf
  {
    PlantedAt(s, q, addr, d, x);
    hide *;
    if x in KidsOf(q) {
      KidNotThere(s, q, x);
    }
  }

  lemma PlantCounts(s: St, q: Path, addr: nat, d: Desc, t: Path, i: nat)
    requires TreeInv(s.levels, s.leaf, s.tbl) && q in s.leaf && |q| < s.levels && i < ENTRIES && Settled(d)
    ensures var r := PlantTable(s, q, addr, d);
            Counts(r.leaf, r.tbl, Kid(t, i)) ==
              if t == q then Backed(d) else if Kid(t, i) == q then true else Counts(s.leaf, s.tbl, Kid(t, i))
  {
    KidOf(t, i);
    KidsOfIff(q, Kid(t, i));
  }

  lemma PlantKeepsCount(s: St, q: Path, addr: nat, d: Desc)
    requires TreeInv(s.levels, s.leaf, s.tbl) && CountInv(s.leaf, s.tbl) && q in s.leaf && |q| < s.levels
    requires Settled(d) && Body(s.leaf[q].d) == d
    ensures CountInv(PlantTable(s, q, addr, d).leaf, PlantTable(s, q, addr, d).tbl)
  {
    hide CountUpTo;
    var r := PlantTable(s, q, addr, d);
    forall t | t in r.tbl
      ensures r.tbl[t].rc == CountUpTo(r.leaf, r.tbl, t, ENTRIES)
    {
      PlantKeepsCountOf(s, q, addr, d, t);
    }
  }

  lemma PlantKeepsCountOf(s: St, q: Path, addr: nat, d: Desc, t: Path)
    requires TreeInv(s.levels, s.leaf, s.tbl) && CountInv(s.leaf, s.tbl) && q in s.leaf && |q| < s.levels
    requires Settled(d) && Body(s.leaf[q].d) == d && t in PlantTable(s, q, addr, d).tbl
    ensures var r := PlantTable(s, q, addr, d); r.tbl[t].rc == CountUpTo(r.leaf, r.tbl, t, ENTRIES)
  {
    hide Spread, Span, CountUpTo;
    var r := PlantTable(s, q, addr, d);
    forall i | 0 <= i < ENTRIES
      ensures Counts(r.leaf, r.tbl, Kid(t, i)) ==
                if t == q then Backed(d) else if Kid(t, i) == q then true else Counts(s.leaf, s.tbl, Kid(t, i))
    {
      PlantCounts(s, q, addr, d, t, i);
    }
    if t == q {
      CountAll(r.leaf, r.tbl, q, ENTRIES, Backed(d));
    } else {
      AroundSlot(s, q, r.leaf, r.tbl, t);
    }
  }

  // When every slot of t other than q counts as before, so does t up to the change of q.
  lemma AroundSlot(s: St, q: Path, leaf': map<Path, Leaf>, tbl': map<Path, Table>, t: Path)
    requires TreeInv(s.levels, s.leaf, s.tbl) && q != [] && InTree(s.leaf, s.tbl, q)
    requires forall i :: 0 <= i < ENTRIES && Kid(t, i) != q ==>
               Counts(leaf', tbl', Kid(t, i)) == Counts(s.leaf, s.tbl, Kid(t, i))
    ensures CountUpTo(leaf', tbl', t, ENTRIES) == CountUpTo(s.leaf, s.tbl, t, ENTRIES) +
              if t == Parent(q) then Weight(Counts(leaf', tbl', q)) - Weight(Counts(s.leaf, s.tbl, q)) else 0
  {
    if t == Parent(q) {
      OfParent(q);
      KidsDiffer(q);
      CountOne(s.leaf, s.tbl, leaf', tbl', t, Last(q), ENTRIES);
    } else {
      forall i: nat ensures Kid(t, i) != q { KidOf(t, i); }
      CountSame(s.leaf, s.tbl, leaf', tbl', t, ENTRIES);
    }
  }

  // A table whose slots are all leaves can be cut out of the tree.
  lemma CutKeepsKid(s: St, q: Path, next: Desc, t: Path, i: nat)
    requires TreeInv(s.levels, s.leaf, s.tbl) && q in s.tbl && q != [] && i < ENTRIES
    requires t in CutTable(s, q, next).tbl
    ensures InTree(CutTable(s, q, next).leaf, CutTable(s, q, next).tbl, Kid(t, i))
  {
    KidsOfIff(q, Kid(t, i));
    KidOf(t, i);
    assert InTree(s.leaf, s.tbl, Kid(t, i));
  }

  lemma CutKeepsTree(s: St, q: Path, next: Desc)
    requires TreeInv(s.levels, s.leaf, s.tbl) && q in s.tbl && q != []
    requires forall i :: 0 <= i < ENTRIES ==> Kid(q, i) in s.leaf
    ensures Parent(q) in s.tbl && TreeInv(s.levels, CutTable(s, q, next).leaf, CutTable(s, q, next).tbl)
  {
    var r := CutTable(s, q, next);
    forall x ensures x in KidsOf(q) <==> x != [] && Parent(x) == q && Last(x) < ENTRIES { KidsOfIff(q, x); }
    forall t, i | t in r.tbl && 0 <= i < ENTRIES
      ensures InTree(r.leaf, r.tbl, Kid(t, i))
    {
      CutKeepsKid(s, q, next, t, i);
    }
    forall x | x in s.leaf || (x in s.tbl && x != [])
      ensures x !in KidsOf(q) && x != q && Parent(x) in s.tbl ==> Parent(x) in r.tbl
    {
    }
    forall t | t in r.tbl && t != []
      ensures Parent(t) in r.tbl
    {
      if Parent(t) == q {
        OfParent(t);
      }
    }
  }

  // The slots after cutting the table at q.
  lemma CutLeaf(s: St, q: Path, next: Desc, x: Path)
    requires TreeInv(s.levels, s.leaf, s.tbl) && q in s.tbl && q != []
    ensures var r := CutTable(s, q, next);
            if x == q then x in r.leaf && r.leaf[x] == Leaf(Broken(Refold(next, s.tbl[q].addr)), true)
            else if x in s.leaf && Parent(x) != q then x in r.leaf && r.leaf[x] == s.leaf[x]
            else x !in r.leaf
  {
    KidsOfIff(q, x);
  }

  lemma CutCounts(s: St, q: Path, next: Desc, t: Path, i: nat)
    requires TreeInv(s.levels, s.leaf, s.tbl) && q in s.tbl && q != [] && t != q && Kid(t, i) != q
    ensures var r := CutTable(s, q, next); Counts(r.leaf, r.tbl, Kid(t, i)) == Counts(s.leaf, s.tbl, Kid(t, i))
  {
    KidOf(t, i);
    KidsOfIff(q, Kid(t, i));
  }

  lemma CutCountAt(s: St, q: Path, next: Desc, t: Path)
    requires TreeInv(s.levels, s.leaf, s.tbl) && q in s.tbl && q != [] && t != q && Settled(next)
    ensures var r := CutTable(s, q, next);
            CountUpTo(r.leaf, r.tbl, t, ENTRIES) ==
            CountUpTo(s.leaf, s.tbl, t, ENTRIES) - if t == Parent(q) && !Backed(next) then 1 else 0
  {
    var r := CutTable(s, q, next);
    forall i | 0 <= i < ENTRIES && Kid(t, i) != q
      ensures Counts(r.leaf, r.tbl, Kid(t, i)) == Counts(s.leaf, s.tbl, Kid(t, i))
    {
      CutCounts(s, q, next, t, i);
    }
    AroundSlot(s, q, r.leaf, r.tbl, t);
    assert Counts(r.leaf, r.tbl, q) == Backed(next);
  }

  lemma CutKeepsCount(s: St, q: Path, next: Desc)
    requires TreeInv(s.levels, s.leaf, s.tbl) && CountInv(s.leaf, s.tbl) && q in s.tbl && q != []
    requires Settled(next) && (s.tbl[q].rc == 0 <==> !Backed(next))
    ensures CountInv(CutTable(s, q, next).leaf, CutTable(s, q, next).tbl)
  {
    var r := CutTable(s, q, next);
    forall t | t in r.tbl
      ensures r.tbl[t].rc == CountUpTo(r.leaf, r.tbl, t, ENTRIES)
    {
      CutCountAt(s, q, next, t);
    }
  }

  // The zero test of RTT_DESTROY: no slot of the table is a table or holds a protected granule.
  lemma ZeroCountIsBare(s: St, q: Path)
    requires TreeInv(s.levels, s.leaf, s.tbl) && CountInv(s.leaf, s.tbl)
    requires q in s.tbl && s.tbl[q].rc == 0
    ensures forall i :: 0 <= i < ENTRIES ==> Kid(q, i) in s.leaf && !CountsDesc(s.leaf[Kid(q, i)].d)
  {
    forall i | 0 <= i < ENTRIES
      ensures Kid(q, i) in s.leaf && !CountsDesc(s.leaf[Kid(q, i)].d)
    {
      CountExtremes(s.leaf, s.tbl, q, ENTRIES, i);
      assert InTree(s.leaf, s.tbl, Kid(q, i));
    }
  }

  // ---------------------------------------------------------------- every action

  ghost predicate Shape(s: St) {
    TreeInv(s.levels, s.leaf, s.tbl) && CountInv(s.leaf, s.tbl)
  }

  // An action that writes slot q and adjusts the count of its table by exactly the difference.
  lemma WriteKeepsShape(s: St, r: St, q: Path, l: Leaf, rc: int)
    requires Shape(s) && q in s.leaf
    requires rc == Weight(CountsDesc(l.d)) - Weight(CountsDesc(s.leaf[q].d))
    requires Slot(s, q) && r.levels == s.levels
    requires r.leaf == WriteLeaf(s, q, l, rc).leaf && r.tbl == WriteLeaf(s, q, l, rc).tbl
    ensures Shape(r)
  {
    WriteKeepsTree(s, q, l, rc);
    WriteKeepsCount(s, q, l, rc);
  }

  lemma SlotActKeepsShape(s: St, a: TreeAct)
    requires Shape(s) && LeafInv(s.leaf) && TreeEnabled(s, a)
    requires a.Invalidate? || a.CreateBreak? || a.CutMake?
    ensures Shape(TreeStep(s, a))
  {
    var r := TreeStep(s, a);
    assert r.tbl == WriteLeaf(s, a.q, r.leaf[a.q], 0).tbl;
    WriteKeepsShape(s, r, a.q, r.leaf[a.q], 0);
  }

  lemma EntryActKeepsShape(s: St, a: TreeAct)
    requires Shape(s) && TreeEnabled(s, a)
    requires a.SetRipas? || a.SetAp? || a.DevValidate?
    ensures Shape(TreeStep(s, a))
  {
    hide CountInv, CountUpTo;
    var r := TreeStep(s, a);
    WriteKeepsShape(s, r, a.q, r.leaf[a.q], 0);
  }

  lemma CreateKeepsShape(s: St, a: TreeAct)
    requires Shape(s) && LeafInv(s.leaf) && TreeEnabled(s, a) && (a.CreateOver? || a.CreateMake?)
    ensures Shape(TreeStep(s, a))
  {
    var d := Body(s.leaf[a.q].d);
    PlantKeepsTree(s, a.q, a.addr, d);
    PlantKeepsCount(s, a.q, a.addr, d);
  }

  lemma FoldKeepsShape(s: St, q: Path, next: Desc)
    requires Shape(s) && TreeEnabled(s, FoldBreak(q, next))
    ensures Shape(TreeStep(s, FoldBreak(q, next)))
  {
    CutKeepsTree(s, q, next);
    CutKeepsCount(s, q, next);
  }

  lemma DestroyKeepsShape(s: St, q: Path, protected: bool)
    requires Shape(s) && TreeEnabled(s, DestroyBreak(q, protected))
    ensures Shape(TreeStep(s, DestroyBreak(q, protected)))
  {
    hide CountInv, CountUpTo, Unlocked;
    ZeroCountIsBare(s, q);
    CutKeepsTree(s, q, DestroyedAs(protected));
    CutKeepsCount(s, q, DestroyedAs(protected));
  }

  lemma TreeKeepsShape(s: St, a: TreeAct)
    requires Shape(s) && LeafInv(s.leaf) && TreeEnabled(s, a)
    ensures Shape(TreeStep(s, a))
  {
    match a
    case CreateOver(_, _) => CreateKeepsShape(s, a);
    case CreateMake(_, _) => CreateKeepsShape(s, a);
    case FoldBreak(q, next) => FoldKeepsShape(s, q, next);
    case DestroyBreak(q, protected) => DestroyKeepsShape(s, q, protected);
    case Invalidate(_) => SlotActKeepsShape(s, a);
    case CreateBreak(_) => SlotActKeepsShape(s, a);
    case CutMake(_) => SlotActKeepsShape(s, a);
    case _ => EntryActKeepsShape(s, a);
  }

  // Stamping a slot takes a reference, as does mapping a granule directly.
  lemma StampKeepsShape(s: St, a: MapAct)
    requires Shape(s) && MapEnabled(s, a) && (a.Stamp? || a.MapInit?)
    ensures Shape(MapStep(s, a))
  {
    WriteKeepsShape(s, MapStep(s, a), a.q, MapStep(s, a).leaf[a.q], 1);
  }

  lemma UnprotMapKeepsShape(s: St, a: MapAct)
    requires Shape(s) && MapEnabled(s, a) && a.UnprotMap?
    ensures Shape(MapStep(s, a))
  {
    WriteKeepsShape(s, MapStep(s, a), a.q, MapStep(s, a).leaf[a.q], 0);
  }

  // Completing a map keeps the reference of the marker, abandoning it drops it.
  lemma EndKeepsShape(s: St, a: MapAct)
    requires Shape(s) && MapEnabled(s, a) && (a.Finish? || a.Undone?)
    ensures Shape(MapStep(s, a))
  {
    if a.Finish? {
      WriteKeepsShape(s, MapStep(s, a), s.ops[a.h].slot, MapStep(s, a).leaf[s.ops[a.h].slot], 0);
    } else {
      UndoneKeepsShape(s, a.h);
    }
  }

  lemma UndoneKeepsShape(s: St, h: nat)
    requires Shape(s) && MapEnabled(s, Undone(h))
    ensures Shape(MapStep(s, Undone(h)))
  {
    WriteKeepsShape(s, MapStep(s, Undone(h)), s.ops[h].slot, MapStep(s, Undone(h)).leaf[s.ops[h].slot], -1);
  }

  lemma MapKeepsShape(s: St, a: MapAct)
    requires Shape(s) && MapEnabled(s, a)
    ensures Shape(MapStep(s, a))
  {
    if a.Stamp? || a.MapInit? {
      StampKeepsShape(s, a);
    } else if a.UnprotMap? {
      UnprotMapKeepsShape(s, a);
    } else if a.Finish? || a.Undone? {
      EndKeepsShape(s, a);
    }
  }

  // Sweeping a protected entry turns its reference into that of the marker; an unprotected entry
  // held none, so its marker takes one.
  lemma SweepKeepsShape(s: St, h: nat, q: Path, unit: bool)
    requires Shape(s) && UnmapEnabled(s, Sweep(h, q, unit))
    ensures Shape(SweepStep(s, h, q, unit))
  {
    var r := SweepStep(s, h, q, unit);
    WriteKeepsShape(s, r, q, r.leaf[q], if s.ops[h].flavour == FlUnprot then 1 else 0);
  }

  lemma MarkerKeepsShape(s: St, a: UnmapAct)
    requires Shape(s) && UnmapEnabled(s, a) && (a.TlbiClear? || a.Unmark?)
    ensures Shape(UnmapStep(s, a))
  {
    var r := UnmapStep(s, a);
    if a.TlbiClear? {
      WriteKeepsShape(s, r, s.ops[a.h].sync.at, r.leaf[s.ops[a.h].sync.at], 0);
    } else {
      WriteKeepsShape(s, r, a.q, r.leaf[a.q], -1);
    }
  }

  lemma UnmapKeepsShape(s: St, a: UnmapAct)
    requires Shape(s) && UnmapEnabled(s, a)
    ensures Shape(UnmapStep(s, a))
  {
    if a.Sweep? {
      SweepKeepsShape(s, a.h, a.q, a.unit);
    } else if a.TlbiClear? || a.Unmark? {
      MarkerKeepsShape(s, a);
    }
  }
}
