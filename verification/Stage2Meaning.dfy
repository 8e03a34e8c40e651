/**
  * Creating and folding tables changes how a translation is stored, never what it says.
  */
module Stage2Meaning {
  import opened Basics
  import opened Stage2
  import opened Stage2Steps
  import opened Stage2Inv
  import opened Stage2Tree
  import opened Stage2Own
  import opened Stage2Ops
  import opened Stage2Tlb
  import opened Stage2Theorems

  // ---------------------------------------------------------------- what an address means

  // An intermediate physical address: one index per level, down to a page.
  predicate IsIpa(levels: nat, ipa: Path) {
    |ipa| == levels && forall i :: 0 <= i < |ipa| ==> ipa[i] < ENTRIES
  }

  // The depth of the leaf a walk ends at, from the table at depth k.
  function LeafDepth(levels: nat, leaf: map<Path, Leaf>, tbl: map<Path, Table>, ipa: Path, k: nat): (j: nat)
    requires TreeInv(levels, leaf, tbl) && IsIpa(levels, ipa) && k < levels && ipa[..k] in tbl
    ensures k < j <= levels && ipa[..j] in leaf
    decreases levels - k
  {
    assert ipa[..k + 1] == Kid(ipa[..k], ipa[k]);
    assert InTree(leaf, tbl, Kid(ipa[..k], ipa[k]));
    if ipa[..k + 1] in leaf then k + 1 else LeafDepth(levels, leaf, tbl, ipa, k + 1)
  }

  // The page-sized entry that d provides at the path w below it.
  function Descend(d: Desc, w: Path): (r: Desc)
    decreases |w|
  {
    if w == [] then d else Descend(Piece(d, w[0], Span(|w| - 1)), w[1..])
  }

  // What the tables say about one page of the address space: whether and how it is assigned, its
  // RIPAS, its output page and its permissions.
  function Meaning(s: St, ipa: Path): (d: Desc)
    requires TreeInv(s.levels, s.leaf, s.tbl) && IsIpa(s.levels, ipa)
  {
    assert ipa[..0] == [];
    var k := LeafDepth(s.levels, s.leaf, s.tbl, ipa, 0);
    Descend(Body(s.leaf[ipa[..k]].d), ipa[k..])
  }

  // The number of the page w within its block.
  function Offset(w: Path): (n: nat)
    decreases |w|
  {
    if w == [] then 0 else w[0] * Span(|w| - 1) + Offset(w[1..])
  }

  // Below a block the output page is the block's first page plus the offset, all else is the block's.
  lemma {:induction false} DescendOffset(d: Desc, w: Path)
    ensures Descend(d, w) == if d.Assigned? || d.AssignedDev? || d.AssignedNs? then d.(pa := d.pa + Offset(w)) else d
    decreases |w|
  {
    if w != [] {
      DescendOffset(Piece(d, w[0], Span(|w| - 1)), w[1..]);
    }
  }

  // A walk reads the leaf that lies on the path, wherever it is.
  lemma MeaningAt(s: St, ipa: Path, j: nat)
    requires TreeInv(s.levels, s.leaf, s.tbl) && IsIpa(s.levels, ipa) && j <= s.levels && ipa[..j] in s.leaf
    ensures Meaning(s, ipa) == Descend(Body(s.leaf[ipa[..j]].d), ipa[j..])
  {
    assert ipa[..0] == [];
    var k := LeafDepth(s.levels, s.leaf, s.tbl, ipa, 0);
    OneLeaf(s.levels, s.leaf, s.tbl, ipa, j, k);
  }

  // ---------------------------------------------------------------- create and fold

  ghost predicate IsTree(s: St) {
    TreeInv(s.levels, s.leaf, s.tbl)
  }

  // One level of a block: what the block says below w is what its piece w[0] says below w[1..].
  lemma OneLevel(d: Desc, ipa: Path, k: nat)
    requires k < |ipa|
    ensures Descend(d, ipa[k..]) == Descend(Piece(d, ipa[k], Span(|ipa| - k - 1)), ipa[k + 1..])
  {
    assert ipa[k..][1..] == ipa[k + 1..];
  }

  // A block at q, and a table at q whose slots are the pieces of the block, say the same.
  lemma BlockAndTableAgree(b: St, t: St, q: Path, d: Desc, ipa: Path)
    requires TreeInv(b.levels, b.leaf, b.tbl) && TreeInv(t.levels, t.leaf, t.tbl) && b.levels == t.levels
    requires IsIpa(b.levels, ipa) && |q| < b.levels && ipa[..|q|] == q
    requires q in b.leaf && Body(b.leaf[q].d) == d && Settled(d)
    requires Kid(q, ipa[|q|]) in t.leaf && t.leaf[Kid(q, ipa[|q|])].d == Piece(d, ipa[|q|], Span(b.levels - |q| - 1))
    ensures Meaning(b, ipa) == Meaning(t, ipa)
  {
    hide TreeInv, Meaning, Span;
    var k := |q|;
    assert ipa[..k + 1] == Kid(q, ipa[k]);
    MeaningAt(b, ipa, k);
    MeaningAt(t, ipa, k + 1);
    OneLevel(d, ipa, k);
  }

  lemma PlantedSlot(s: St, q: Path, addr: nat, d: Desc, i: nat)
    requires TreeInv(s.levels, s.leaf, s.tbl) && q in s.leaf && |q| < s.levels && i < ENTRIES
    ensures var r := PlantTable(s, q, addr, d);
            Kid(q, i) in r.leaf && r.leaf[Kid(q, i)] == Leaf(Piece(d, i, Span(s.levels - |q| - 1)), false)
  {
    KidOf(q, i);
    KidsOfIff(q, Kid(q, i));
    PlantLeaf(s, q, addr, d, Kid(q, i));
  }

  lemma PlantElsewhere(s: St, q: Path, addr: nat, d: Desc, ipa: Path, k: nat)
    requires IsTree(s) && q in s.leaf && |q| < s.levels
    requires IsTree(PlantTable(s, q, addr, d)) && IsIpa(s.levels, ipa)
    requires k <= s.levels && ipa[..k] in s.leaf && ipa[..k] != q
    ensures Meaning(PlantTable(s, q, addr, d), ipa) == Meaning(s, ipa)
  {
    PlantLeaf(s, q, addr, d, ipa[..k]);
    MeaningAt(s, ipa, k);
    MeaningAt(PlantTable(s, q, addr, d), ipa, k);
  }

  lemma PlantKeepsMeaning(s: St, q: Path, addr: nat, d: Desc, ipa: Path)
    requires IsTree(s) && q in s.leaf && |q| < s.levels && Body(s.leaf[q].d) == d && Settled(d)
    requires IsTree(PlantTable(s, q, addr, d)) && IsIpa(s.levels, ipa)
    ensures Meaning(PlantTable(s, q, addr, d), ipa) == Meaning(s, ipa)
  {
    assert ipa[..0] == [];
    var k := LeafDepth(s.levels, s.leaf, s.tbl, ipa, 0);
    if ipa[..k] == q {
      PlantedSlot(s, q, addr, d, ipa[k]);
      BlockAndTableAgree(s, PlantTable(s, q, addr, d), q, d, ipa);
    } else {
      PlantElsewhere(s, q, addr, d, ipa, k);
    }
  }

  lemma CutElsewhere(s: St, q: Path, next: Desc, ipa: Path, k: nat)
    requires IsTree(s) && q in s.tbl && q != []
    requires IsTree(CutTable(s, q, next)) && IsIpa(s.levels, ipa)
    requires 0 < k <= s.levels && ipa[..k] in s.leaf && Parent(ipa[..k]) != q
    ensures Meaning(CutTable(s, q, next), ipa) == Meaning(s, ipa)
  {
    CutLeaf(s, q, next, ipa[..k]);
    MeaningAt(s, ipa, k);
    MeaningAt(CutTable(s, q, next), ipa, k);
  }

  lemma CutBelow(s: St, q: Path, next: Desc, ipa: Path)
    requires IsTree(s) && q in s.tbl && q != [] && FoldsTo(s, q, next)
    requires IsTree(CutTable(s, q, next))
    requires IsIpa(s.levels, ipa) && ipa[..|q|] == q
    ensures Meaning(CutTable(s, q, next), ipa) == Meaning(s, ipa)
  {
    CutLeaf(s, q, next, q);
    BlockAndTableAgree(CutTable(s, q, next), s, q, next, ipa);
  }

  lemma CutKeepsMeaning(s: St, q: Path, next: Desc, ipa: Path)
    requires IsTree(s) && q in s.tbl && q != [] && FoldsTo(s, q, next)
    requires IsTree(CutTable(s, q, next)) && IsIpa(s.levels, ipa)
    ensures Meaning(CutTable(s, q, next), ipa) == Meaning(s, ipa)
  {
    if ipa[..|q|] == q {
      CutBelow(s, q, next, ipa);
    } else {
      CutAside(s, q, next, ipa);
    }
  }

  lemma CutAside(s: St, q: Path, next: Desc, ipa: Path)
    requires IsTree(s) && q in s.tbl && q != [] && |q| <= s.levels
    requires IsTree(CutTable(s, q, next)) && IsIpa(s.levels, ipa) && ipa[..|q|] != q
    ensures Meaning(CutTable(s, q, next), ipa) == Meaning(s, ipa)
  {
    assert ipa[..0] == [];
    var k := LeafDepth(s.levels, s.leaf, s.tbl, ipa, 0);
    assert Parent(ipa[..k]) == ipa[..k - 1];
    CutElsewhere(s, q, next, ipa, k);
  }

  // The actions RTT_CREATE and RTT_FOLD are made of, at any depth and for every address.
  predicate Restructures(a: TreeAct) {
    a.Invalidate? || a.CreateOver? || a.CreateBreak? || a.CreateMake? || a.FoldBreak? || a.CutMake?
  }

  lemma SlotKeepsMeaning(s: St, r: St, q: Path, ipa: Path)
    requires Shape(s) && Shape(r) && r.levels == s.levels && IsIpa(s.levels, ipa)
    requires q in s.leaf && q in r.leaf && r.leaf == s.leaf[q := r.leaf[q]]
    requires Body(r.leaf[q].d) == Body(s.leaf[q].d)
    ensures Meaning(r, ipa) == Meaning(s, ipa)
  {
    assert ipa[..0] == [];
    var k := LeafDepth(s.levels, s.leaf, s.tbl, ipa, 0);
    MeaningAt(r, ipa, k);
  }

  lemma RestructuringKeepsMeaning(s: St, a: TreeAct, ipa: Path)
    requires Shape(s) && LeafInv(s.leaf) && TreeEnabled(s, a) && Restructures(a) && IsIpa(s.levels, ipa)
    ensures Shape(TreeStep(s, a)) && Meaning(TreeStep(s, a), ipa) == Meaning(s, ipa)
  {
    TreeKeepsShape(s, a);
    if a.CreateOver? || a.CreateMake? {
      PlantKeepsMeaning(s, a.q, a.addr, Body(s.leaf[a.q].d), ipa);
    } else if a.FoldBreak? {
      CutKeepsMeaning(s, a.q, a.next, ipa);
    } else {
      SlotKeepsMeaning(s, TreeStep(s, a), a.q, ipa);
    }
  }

  // ---------------------------------------------------------------- folding a created table

  // The block entries of a table are aligned to their size and no larger than a block may be.
  predicate Aligned(s: St, q: Path, d: Desc) {
    d.Assigned? || d.AssignedDev? || d.AssignedNs? ==> s.levels - |q| <= BLOCK_HEIGHT && d.pa % Pages(s, q) == 0
  }

  // A table just created over an entry folds back to that entry.
  lemma CreatedFolds(s: St, q: Path, addr: nat, d: Desc)
    requires Shape(s) && q in s.leaf && |q| < s.levels && Settled(d) && Aligned(s, q, d)
    ensures FoldsTo(PlantTable(s, q, addr, d), q, d)
    ensures PlantTable(s, q, addr, d).tbl[q].rc == (if Backed(d) then ENTRIES else 0)
  {
    hide Span, Piece, CountInv;
    forall i | 0 <= i < ENTRIES
      ensures var r := PlantTable(s, q, addr, d);
              Kid(q, i) in r.leaf && r.leaf[Kid(q, i)] == Leaf(Piece(d, i, Span(s.levels - |q| - 1)), false)
    {
      PlantedSlot(s, q, addr, d, i);
    }
  }

  // Cutting out a table that was just planted leaves the counts and, but for q, the slots as they were.
  lemma CutUndoesPlant(s: St, q: Path, addr: nat, d: Desc, x: Path)
    requires Shape(s) && q in s.leaf && |q| < s.levels
    ensures q in PlantTable(s, q, addr, d).tbl && Parent(q) in PlantTable(s, q, addr, d).tbl
    ensures var s2 := CutTable(PlantTable(s, q, addr, d), q, d);
            if x == q then x in s2.leaf && s2.leaf[x] == Leaf(Broken(Refold(d, addr)), true)
            else if x in s.leaf then x in s2.leaf && s2.leaf[x] == s.leaf[x]
            else x !in s2.leaf
  {
    PlantKeepsTree(s, q, addr, d);
    PlantLeaf(s, q, addr, d, x);
    CutLeaf(PlantTable(s, q, addr, d), q, d, x);
    KidsOfIff(q, x);
  }

  lemma CutRestoresCounts(s: St, q: Path, addr: nat, d: Desc)
    requires q in s.leaf && q != [] && q !in s.tbl && Parent(q) in s.tbl && |q| < s.levels
    ensures CutTable(PlantTable(s, q, addr, d), q, d).tbl == s.tbl
  {
  }

  lemma SameMaps(a: map<Path, Leaf>, b: map<Path, Leaf>)
    requires forall x :: (x in a <==> x in b) && (x in b ==> a[x] == b[x])
    ensures a == b
  {
  }

  lemma CutRestoresSlots(s: St, q: Path, addr: nat, d: Desc)
    requires Shape(s) && q in s.leaf && |q| < s.levels
    ensures q in PlantTable(s, q, addr, d).tbl && Parent(q) in PlantTable(s, q, addr, d).tbl
    ensures CutTable(PlantTable(s, q, addr, d), q, d).leaf == s.leaf[q := Leaf(Broken(Refold(d, addr)), true)]
  {
    CutUndoesPlant(s, q, addr, d, q);
    hide PlantTable, CutTable, Shape;
    var cut, want := CutTable(PlantTable(s, q, addr, d), q, d).leaf, s.leaf[q := Leaf(Broken(Refold(d, addr)), true)];
    forall x
      ensures (x in cut <==> x in want) && (x in want ==> cut[x] == want[x])
    {
      CutUndoesPlant(s, q, addr, d, x);
    }
    SameMaps(cut, want);
  }

  lemma CutRestored(s: St, s2: St, q: Path, addr: nat, d: Desc)
    requires Slot(s, q) && s.leaf[q] == Leaf(d, false) && Settled(d) && Is(s, addr, Delegated)
    requires s2.leaf == s.leaf[q := Leaf(Broken(Refold(d, addr)), true)] && s2.tbl == s.tbl
    requires s2.gran == s.gran[addr := Rtt] && s2.ops == s.ops && s2.levels == s.levels
    ensures TreeEnabled(s2, Invalidate(q))
         && var s3 := TreeStep(s2, Invalidate(q));
            && TreeEnabled(s3, CutMake(q))
            && var s4 := TreeStep(s3, CutMake(q));
            s4.leaf == s.leaf && s4.tbl == s.tbl && s4.gran == s.gran && s4.ops == s.ops
  {
  }

  // From a table just planted over q, folding restores every slot, every reference count and every
  // granule state.
  lemma Refolds(s: St, s1: St, q: Path, addr: nat, d: Desc)
    requires Shape(s) && Slot(s, q) && |q| < s.levels && s.leaf[q] == Leaf(d, false)
    requires Settled(d) && Aligned(s, q, d) && Is(s, addr, Delegated)
    requires var p := PlantTable(s, q, addr, d);
             s1.levels == p.levels && s1.leaf == p.leaf && s1.tbl == p.tbl && s1.gran == p.gran && s1.ops == p.ops
    ensures TreeEnabled(s1, FoldBreak(q, d))
         && var s2 := TreeStep(s1, FoldBreak(q, d));
            && TreeEnabled(s2, Invalidate(q))
            && var s3 := TreeStep(s2, Invalidate(q));
            && TreeEnabled(s3, CutMake(q))
            && var s4 := TreeStep(s3, CutMake(q));
            s4.leaf == s.leaf && s4.tbl == s.tbl && s4.gran == s.gran && s4.ops == s.ops
  {
    CutOf(s, s1, q, addr, d);
    hide Shape, Aligned, FoldsTo, CutTable, PlantTable, Step, TreeEnabled, TreeStep;
    CutRestored(s, CutTable(s1, q, d), q, addr, d);
  }

  lemma CutOf(s: St, s1: St, q: Path, addr: nat, d: Desc)
    requires Shape(s) && Slot(s, q) && |q| < s.levels && s.leaf[q] == Leaf(d, false) && Settled(d) && Aligned(s, q, d)
    requires var p := PlantTable(s, q, addr, d);
             s1.levels == p.levels && s1.leaf == p.leaf && s1.tbl == p.tbl && s1.gran == p.gran && s1.ops == p.ops
    ensures TreeEnabled(s1, FoldBreak(q, d)) && TreeStep(s1, FoldBreak(q, d)) == CutTable(s1, q, d)
    ensures var s2 := CutTable(s1, q, d);
            && s2.leaf == s.leaf[q := Leaf(Broken(Refold(d, addr)), true)] && s2.tbl == s.tbl
            && s2.gran == s.gran[addr := Rtt] && s2.ops == s.ops && s2.levels == s.levels
  {
    hide Aligned, FoldsTo, CountInv;
    CreatedFolds(s, q, addr, d);
    CutRestoresSlots(s, q, addr, d);
    CutRestoresCounts(s, q, addr, d);
    CutAlike(PlantTable(s, q, addr, d), s1, q, d);
  }

  // Folding looks at slots, counts and granules only.
  lemma CutAlike(p: St, s1: St, q: Path, d: Desc)
    requires s1.levels == p.levels && s1.leaf == p.leaf && s1.tbl == p.tbl && s1.gran == p.gran && s1.ops == p.ops
    requires q != [] && q in p.tbl && Parent(q) in p.tbl && FoldsTo(p, q, d)
    ensures FoldsTo(s1, q, d)
    ensures var c, c1 := CutTable(p, q, d), CutTable(s1, q, d);
            c1.leaf == c.leaf && c1.tbl == c.tbl && c1.gran == p.gran && c1.ops == p.ops && c1.levels == p.levels
  {
  }

  // Creating a table over an entry that is not valid, and folding it again, changes nothing.
  lemma FoldUndoesCreate(s: St, q: Path, addr: nat)
    requires Shape(s) && TreeEnabled(s, CreateOver(q, addr)) && Aligned(s, q, s.leaf[q].d)
    ensures var s1 := TreeStep(s, CreateOver(q, addr));
            && TreeEnabled(s1, FoldBreak(q, s.leaf[q].d))
            && var s2 := TreeStep(s1, FoldBreak(q, s.leaf[q].d));
            && TreeEnabled(s2, Invalidate(q))
            && var s3 := TreeStep(s2, Invalidate(q));
            && TreeEnabled(s3, CutMake(q))
            && var s4 := TreeStep(s3, CutMake(q));
            s4.leaf == s.leaf && s4.tbl == s.tbl && s4.gran == s.gran && s4.ops == s.ops
  {
    Refolds(s, TreeStep(s, CreateOver(q, addr)), q, addr, s.leaf[q].d);
  }

  // The state after a block at q was broken and invalidated.
  function Brk(s: St, q: Path): (r: St)
    requires TreeEnabled(s, CreateBreak(q))
  {
    TreeStep(TreeStep(s, CreateBreak(q)), Invalidate(q))
  }

  lemma BrkIs(s: St, q: Path)
    requires TreeEnabled(s, CreateBreak(q))
    ensures var b := Brk(s, q);
            && b.levels == s.levels && b.ops == s.ops && b.gran == s.gran && b.tbl == s.tbl
            && b.leaf == s.leaf[q := Leaf(Broken(Unfold(s.leaf[q].d)), false)]
  {
  }

  // The same for a valid block, which is broken and invalidated before the table replaces it.
  lemma FoldUndoesCreateOverBlock(s: St, q: Path, addr: nat)
    requires Shape(s) && TreeEnabled(s, CreateBreak(q)) && Is(s, addr, Delegated) && Aligned(s, q, s.leaf[q].d)
    ensures TreeEnabled(Brk(s, q), CreateMake(q, addr))
         && var s1 := TreeStep(Brk(s, q), CreateMake(q, addr));
            && TreeEnabled(s1, FoldBreak(q, s.leaf[q].d))
            && var s2 := TreeStep(s1, FoldBreak(q, s.leaf[q].d));
            && TreeEnabled(s2, Invalidate(q))
            && var s3 := TreeStep(s2, Invalidate(q));
            && TreeEnabled(s3, CutMake(q))
            && var s4 := TreeStep(s3, CutMake(q));
            s4.leaf == s.leaf && s4.tbl == s.tbl && s4.gran == s.gran && s4.ops == s.ops
  {
    BrkIs(s, q);
    PlantOver(s, Brk(s, q), q, addr, s.leaf[q].d);
    Refolds(s, PlantTable(Brk(s, q), q, addr, s.leaf[q].d), q, addr, s.leaf[q].d);
  }

  // A planted table does not depend on what the slot held.
  lemma PlantOver(s: St, b: St, q: Path, addr: nat, d: Desc)
    requires Slot(s, q) && |q| < s.levels && q in b.leaf
    requires b.levels == s.levels && b.tbl == s.tbl && b.gran == s.gran && b.leaf == s.leaf[q := b.leaf[q]]
    ensures var p, p' := PlantTable(s, q, addr, d), PlantTable(b, q, addr, d);
            p.leaf == p'.leaf && p.tbl == p'.tbl && p.gran == p'.gran
  {
    assert b.leaf - {q} == s.leaf - {q};
  }

  // ---------------------------------------------------------------- alignment

  ghost predicate AlignInv(s: St) {
    && (forall q :: q in s.leaf ==> Aligned(s, q, Body(s.leaf[q].d)))
    && (forall h :: h in s.ops && s.ops[h].MapOp? ==>
          s.levels - |s.ops[h].slot| <= BLOCK_HEIGHT && s.ops[h].pa % Pages(s, s.ops[h].slot) == 0)
  }

  lemma PieceAligned(pa: nat, i: nat, n: nat)
    requires n > 0 && pa % (ENTRIES * n) == 0
    ensures (pa + i * n) % n == 0
  {
    var m := pa / (ENTRIES * n);
    assert pa == (ENTRIES * n) * m;
    assert pa + i * n == n * (ENTRIES * m + i) by {
      assert (ENTRIES * n) * m == n * (ENTRIES * m);
    }
    MultipleAligned(n, ENTRIES * m + i);
  }

  lemma MultipleAligned(n: nat, k: nat)
    requires n > 0
    ensures (n * k) % n == 0
  {
    QuotientIs(n * k, n, k);
    assert n * k == n * (n * k / n) + n * k % n;
  }

  lemma PieceKeepsAlign(s: St, q: Path, d: Desc, x: Path)
    requires |q| < s.levels && Aligned(s, q, d) && |x| == |q| + 1
    ensures Aligned(s, x, Piece(d, Last(x), Span(s.levels - |q| - 1)))
  {
    if Backed(d) || d.AssignedNs? {
      PieceAligned(d.pa, Last(x), Span(s.levels - |q| - 1));
    }
  }

  // Alignment depends on the depth of the tree only.
  lemma AlignedAlike(s: St, r: St, x: Path, d: Desc)
    requires r.levels == s.levels
    ensures Aligned(r, x, d) <==> Aligned(s, x, d)
  {
  }

  lemma PlantKeepsAlign(s: St, q: Path, addr: nat, d: Desc)
    requires AlignInv(s) && IsTree(s) && q in s.leaf && |q| < s.levels && Settled(d) && Body(s.leaf[q].d) == d
    ensures AlignInv(PlantTable(s, q, addr, d))
  {
    hide Span, Aligned;
    var r := PlantTable(s, q, addr, d);
    forall x | x in r.leaf
      ensures Aligned(r, x, Body(r.leaf[x].d))
    {
      PlantLeaf(s, q, addr, d, x);
      KidsOfIff(q, x);
      if x in KidsOf(q) {
        PieceKeepsAlign(s, q, d, x);
      }
      AlignedAlike(s, r, x, Body(r.leaf[x].d));
    }
  }

  lemma CutKeepsAlign(s: St, q: Path, next: Desc)
    requires AlignInv(s) && IsTree(s) && q in s.tbl && q != [] && Settled(next) && Aligned(s, q, next)
    ensures AlignInv(CutTable(s, q, next))
  {
    var r := CutTable(s, q, next);
    forall x | x in r.leaf
      ensures Aligned(r, x, Body(r.leaf[x].d))
    {
      CutLeaf(s, q, next, x);
    }
  }

  lemma TreeKeepsAlign(s: St, a: TreeAct)
    requires AlignInv(s) && IsTree(s) && LeafInv(s.leaf) && TreeEnabled(s, a)
    ensures AlignInv(TreeStep(s, a))
  {
    if a.CreateOver? || a.CreateMake? {
      PlantKeepsAlign(s, a.q, a.addr, Body(s.leaf[a.q].d));
    } else if a.FoldBreak? {
      CutKeepsAlign(s, a.q, a.next);
    } else if a.DestroyBreak? {
      CutKeepsAlign(s, a.q, DestroyedAs(a.protected));
    } else {
      SlotKeepsAlign(s, a);
    }
  }

  lemma SlotKeepsAlign(s: St, a: TreeAct)
    requires AlignInv(s) && LeafInv(s.leaf) && TreeEnabled(s, a) && !GrowsOrCuts(a)
    ensures AlignInv(TreeStep(s, a))
  {
    SlotActs(s, a);
  }

  lemma StepKeepsAlign(s: St, a: Act)
    requires AlignInv(s) && Inv(s) && Enabled(s, a)
    ensures AlignInv(Step(s, a))
  {
    match a
    case World(w) => WorldKeepsAlign(s, w);
    case Tree(t) => TreeKeepsAlign(s, t);
    case Map(m) => MapKeepsAlign(s, m);
    case Unmap(u) => UnmapKeepsAlign(s, u);
  }

  lemma WorldKeepsAlign(s: St, w: WorldAct)
    requires AlignInv(s) && WorldEnabled(s, w)
    ensures AlignInv(WorldStep(s, w))
  {
  }

  // Slot q now stands for d, and map operations are as before or new ones are aligned.
  lemma MapWriteKeepsAlign(s: St, r: St, q: Path)
    requires AlignInv(s) && r.levels == s.levels && q in r.leaf && q in s.leaf && r.leaf == s.leaf[q := r.leaf[q]]
    requires Aligned(s, q, Body(r.leaf[q].d))
    requires forall h :: h in r.ops && r.ops[h].MapOp? ==>
               s.levels - |r.ops[h].slot| <= BLOCK_HEIGHT && r.ops[h].pa % Pages(s, r.ops[h].slot) == 0
    ensures AlignInv(r)
  {
    forall x: Path ensures Pages(r, x) == Pages(s, x) {}
  }

  lemma MapPagesKeepAlign(s: St, m: MapAct)
    requires AlignInv(s) && MapEnabled(s, m)
    requires m.TakePage? || m.TakeWhole? || m.Claim?
    ensures AlignInv(MapStep(s, m))
  {
    hide Aligned;
    assert forall q, d :: Aligned(MapStep(s, m), q, d) == Aligned(s, q, d) by { SameAligned(s, MapStep(s, m)); }
  }

  lemma MapRestKeepsAlign(s: St, m: MapAct)
    requires AlignInv(s) && MapEnabled(s, m) && (m.Zero? || m.Publish? || m.Fail? || m.Undo?)
    ensures AlignInv(MapStep(s, m))
  {
    hide Aligned;
    assert forall q, d :: Aligned(MapStep(s, m), q, d) == Aligned(s, q, d) by { SameAligned(s, MapStep(s, m)); }
  }

  lemma SameAligned(s: St, r: St)
    requires r.levels == s.levels
    ensures forall q, d :: Aligned(r, q, d) == Aligned(s, q, d)
  {
  }

  lemma MapKeepsAlign(s: St, m: MapAct)
    requires AlignInv(s) && MapEnabled(s, m)
    ensures AlignInv(MapStep(s, m))
  {
    if m.Stamp? || m.MapInit? || m.UnprotMap? {
      MapWriteKeepsAlign(s, MapStep(s, m), m.q);
    } else if m.Finish? || m.Undone? {
      MapWriteKeepsAlign(s, MapStep(s, m), s.ops[m.h].slot);
    } else if m.TakePage? || m.TakeWhole? || m.Claim? {
      MapPagesKeepAlign(s, m);
    } else {
      MapRestKeepsAlign(s, m);
    }
  }

  lemma UnmapKeepsAlign(s: St, u: UnmapAct)
    requires AlignInv(s) && UnmapEnabled(s, u)
    ensures AlignInv(UnmapStep(s, u))
  {
    hide AlignInv, UnmapEnabled, UnmapStep;
    if u.Sweep? || u.TlbiClear? || u.Unmark? {
      MarkingKeepsAlign(s, u);
    } else {
      DrainingKeepsAlign(s, u);
    }
  }

  lemma DrainingKeepsAlign(s: St, u: UnmapAct)
    requires AlignInv(s) && UnmapEnabled(s, u) && !u.Sweep? && !u.TlbiClear? && !u.Unmark?
    ensures AlignInv(UnmapStep(s, u))
  {
    hide Aligned;
    assert forall q, d :: Aligned(UnmapStep(s, u), q, d) == Aligned(s, q, d) by { SameAligned(s, UnmapStep(s, u)); }
  }

  lemma MarkingKeepsAlign(s: St, u: UnmapAct)
    requires AlignInv(s) && UnmapEnabled(s, u) && (u.Sweep? || u.TlbiClear? || u.Unmark?)
    ensures AlignInv(UnmapStep(s, u))
  {
    hide Span;
  }

  // In every reachable state blocks are aligned, so a table created over any entry folds back to it.
  lemma {:induction false} RunKeepsAlign(s: St, run: seq<Act>)
    requires Inv(s) && AlignInv(s) && Possible(s, run)
    ensures AlignInv(After(s, run))
    decreases |run|
  {
    if run != [] {
      StepKeepsInv(s, run[0]);
      StepKeepsAlign(s, run[0]);
      RunKeepsAlign(Step(s, run[0]), run[1..]);
    }
  }

  // A Realm right after its creation, with its root table in granule 0.
  function Created(levels: nat, unit: nat, da: bool): (s: St)
    requires levels > 0
    ensures Init(s) && AlignInv(s)
  {
    St(levels, unit, da, map q | q in KidsOf([]) :: Leaf(Unassigned(Empty, DEFAULT_AP, Unmarked), false),
       map[[] := Table(0, 0)], map[0 := Rtt], map[], {}, map[], {})
  }
}
