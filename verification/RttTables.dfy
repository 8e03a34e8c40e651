/**
  * RTT_CREATE, RTT_FOLD and RTT_DESTROY as they run under the locks of the parent table and the child.
  */
module RttTables {
  import opened Stage2
  import opened Stage2Steps
  import opened Stage2Inv
  import opened Stage2Tree
  import opened Stage2Ops
  import opened Stage2Theorems
  import opened Stage2Meaning
  import opened Stage2Engine

  datatype Reply = Success | Blocked | Mismatch

  // ---------------------------------------------------------------- which tables fold

  // Slot 0 of a table that folds holds the entry it folds to.
  lemma FirstPiece(s: St, q: Path, next: Desc)
    requires FoldsTo(s, q, next)
    ensures Kid(q, 0) in s.leaf && s.leaf[Kid(q, 0)].d == next
  {
    assert Kid(q, 0) in s.leaf && s.leaf[Kid(q, 0)] == Leaf(Piece(next, 0, Span(s.levels - |q| - 1)), false);
  }

  // The reference count of a table that folds is 0 or full: the counts fold looks at first rule out
  // nothing that would fold.
  lemma FoldsToCount(s: St, q: Path, next: Desc)
    requires Shape(s) && q in s.tbl && FoldsTo(s, q, next)
    ensures s.tbl[q].rc == if Backed(next) then ENTRIES else 0
  {
    forall i | 0 <= i < ENTRIES
      ensures Counts(s.leaf, s.tbl, Kid(q, i)) == Backed(next)
    {
      assert s.leaf[Kid(q, i)] == Leaf(Piece(next, i, Span(s.levels - |q| - 1)), false);
    }
    CountAll(s.leaf, s.tbl, q, ENTRIES, Backed(next));
  }

  predicate HasPa(d: Desc) {
    d.Assigned? || d.AssignedDev? || d.AssignedNs?
  }

  // Whether an entry may stand in the parent slot q: blocks only at block levels, and aligned.
  predicate MayStand(s: St, q: Path, d: Desc) {
    Settled(d) && (HasPa(d) ==> s.levels - |q| <= BLOCK_HEIGHT && d.pa % Pages(s, q) == 0)
  }

  // Compares every slot of the table at q with the piece of `next` that belongs there.
  method Uniform(s: St, q: Path, next: Desc) returns (same: bool)
    requires |q| < s.levels && MayStand(s, q, next)
    ensures same <==> FoldsTo(s, q, next)
  {
    var i, n := 0, Span(s.levels - |q| - 1);
    while i < ENTRIES
      invariant 0 <= i <= ENTRIES
      invariant forall k :: 0 <= k < i ==> Kid(q, k) in s.leaf && s.leaf[Kid(q, k)] == Leaf(Piece(next, k, n), false)
    {
      if Kid(q, i) !in s.leaf || s.leaf[Kid(q, i)] != Leaf(Piece(next, i, n), false) {
        return false;
      }
      i := i + 1;
    }
    return true;
  }

  // Whether any slot of the table is owned by a stateful operation.
  method AnyMarked(s: St, q: Path) returns (found: bool)
    ensures found <==> exists i :: 0 <= i < ENTRIES && Kid(q, i) in s.leaf && HasMark(s.leaf[Kid(q, i)].d)
  {
    var i := 0;
    while i < ENTRIES
      invariant 0 <= i <= ENTRIES
      invariant forall k :: 0 <= k < i ==> !(Kid(q, k) in s.leaf && HasMark(s.leaf[Kid(q, k)].d))
    {
      if Kid(q, i) in s.leaf && HasMark(s.leaf[Kid(q, i)].d) {
        return true;
      }
      i := i + 1;
    }
    return false;
  }

  ghost predicate Foldable(s: St, q: Path) {
    exists next :: FoldsTo(s, q, next)
  }

  // Decides whether the table at q folds, as RTT_FOLD does: by its reference count first, and by its
  // slots only when the count is 0 or full.
  method FoldTarget(s: St, q: Path) returns (r: Maybe<Desc>)
    requires Shape(s) && q in s.tbl && q != [] && |q| < s.levels
    ensures r.Some? <==> Foldable(s, q)
    ensures r.Some? ==> FoldsTo(s, q, r.get) && s.tbl[q].rc == if Backed(r.get) then ENTRIES else 0
  {
    forall next | FoldsTo(s, q, next)
      ensures Kid(q, 0) in s.leaf && s.leaf[Kid(q, 0)].d == next && MayStand(s, q, next)
      ensures s.tbl[q].rc == if Backed(next) then ENTRIES else 0
    {
      FirstPiece(s, q, next);
      FoldsToCount(s, q, next);
    }
    if Kid(q, 0) !in s.leaf {
      return None;
    }
    var next := s.leaf[Kid(q, 0)].d;
    if !MayStand(s, q, next) || s.tbl[q].rc != (if Backed(next) then ENTRIES else 0) {
      return None;
    }
    var same := Uniform(s, q, next);
    r := if same then Some(next) else None;
  }

  // ---------------------------------------------------------------- the commands

  // The table at q is gone and its slot holds `next`; the granule of the table is DELEGATED.
  ghost predicate Replaced(s0: St, s: St, q: Path, next: Desc) {
    && q in s0.tbl && q in s.leaf && s.leaf[q] == Leaf(next, false) && q !in s.tbl
    && (forall x :: x in s0.leaf && x !in KidsOf(q) ==> x in s.leaf && s.leaf[x] == s0.leaf[x])
    && (forall x :: x in s.leaf ==> x == q || (x in s0.leaf && x !in KidsOf(q)))
    && s.gran == s0.gran[s0.tbl[q].addr := Delegated] && s.ops == s0.ops
  }

  // Break before make: the slot of the table is cleared, translations below it are invalidated, and
  // only then is the entry written and the table given back.  Walkers run at every point.
  method CutAndMake(e: Engine, q: Path, cut: TreeAct, next: Desc)
    requires e.Valid() && TreeEnabled(e.s, cut)
    requires (cut == FoldBreak(q, next)) || (cut.DestroyBreak? && cut.q == q && next == DestroyedAs(cut.protected))
    modifies e
    ensures e.Valid() && Replaced(old(e.s), e.s, q, next)
    ensures e.s.tbl == CutTable(old(e.s), q, next).tbl
  {
    hide Inv, AlignInv, FoldsTo, Unlocked, Replaced, CutTable, TreeStep;
    CutSlot(e.s, q, next);
    CutIs(e.s, q, cut, next);
    e.Do(Tree(cut));
    e.Walk();
    InvalidateIs(e.s, q);
    e.Do(Tree(Invalidate(q)));
    e.Walk();
    CutMakeIs(e.s, q);
    e.Do(Tree(CutMake(q)));
    CutReplaces(old(e.s), e.s, q, next);
  }

  lemma CutIs(s: St, q: Path, cut: TreeAct, next: Desc)
    requires TreeEnabled(s, cut)
    requires (cut == FoldBreak(q, next)) || (cut.DestroyBreak? && cut.q == q && next == DestroyedAs(cut.protected))
    ensures TreeStep(s, cut) == CutTable(s, q, next)
  {
  }

  lemma InvalidateIs(s: St, q: Path)
    requires TreeEnabled(s, Invalidate(q))
    ensures var r := TreeStep(s, Invalidate(q));
            r == s.(leaf := s.leaf[q := Leaf(s.leaf[q].d, false)], tlb := r.tlb)
  {
  }

  lemma CutMakeIs(s: St, q: Path)
    requires TreeEnabled(s, CutMake(q))
    ensures TreeStep(s, CutMake(q)) == s.(leaf := s.leaf[q := Leaf(s.leaf[q].d.fix.next, false)],
                                          gran := s.gran[s.leaf[q].d.fix.table := Delegated])
  {
    assert WriteDesc(s, q, s.leaf[q].d.fix.next, 0).tbl == s.tbl;
  }

  // What a cut table looks like once its slot has been invalidated and written.
  lemma CutReplaces(s: St, r: St, q: Path, next: Desc)
    requires Inv(s) && q in s.tbl && q != [] && Parent(q) in s.tbl
    requires r.leaf == CutTable(s, q, next).leaf[q := Leaf(next, false)] && r.tbl == CutTable(s, q, next).tbl
    requires r.gran == s.gran[s.tbl[q].addr := Delegated] && r.ops == s.ops
    ensures Replaced(s, r, q, next)
  {
    hide Inv, CutTable;
    CutSlot(s, q, next);
  }

  lemma CutSlot(s: St, q: Path, next: Desc)
    requires Inv(s) && q in s.tbl && q != []
    ensures Parent(q) in s.tbl && |q| <= s.levels && q !in s.leaf
    ensures var r := CutTable(s, q, next);
            && q in r.leaf && r.leaf[q] == Leaf(Broken(Refold(next, s.tbl[q].addr)), true) && q !in r.tbl && Parent(q) in r.tbl
            && r.levels == s.levels && r.gran == s.gran && r.ops == s.ops
            && (forall x :: x in s.leaf && x !in KidsOf(q) ==> x in r.leaf && r.leaf[x] == s.leaf[x])
            && (forall x :: x in r.leaf ==> x == q || (x in s.leaf && x !in KidsOf(q)))
  {
    hide CountInv, LeafInv, MarkInv, OpInv, OwnInv, SoleInv, TlbInv, NestInv;
  }

  // RTT_FOLD of the table at q.  It succeeds exactly when the table folds and no stateful operation
  // owns one of its slots; otherwise nothing changes.
  method Fold(e: Engine, q: Path) returns (reply: Reply)
    requires e.Valid() && q in e.s.tbl && q != [] && Unlocked(e.s, q)
    modifies e
    ensures e.Valid()
    ensures reply == Success <==> Foldable(old(e.s), q)
    ensures reply == Success ==> exists next :: FoldsTo(old(e.s), q, next) && Replaced(old(e.s), e.s, q, next)
    ensures reply != Success ==> e.s == old(e.s)
    ensures reply == Blocked ==>
              exists i :: 0 <= i < ENTRIES && Kid(q, i) in old(e.s).leaf && HasMark(old(e.s).leaf[Kid(q, i)].d)
  {
    ShapeOf(e.s);
    hide Inv, AlignInv, Replaced, Shape;
    TableDepth(e.s, q);
    var marked := AnyMarked(e.s, q);
    if marked {
      MarkedNotFoldable(e.s, q);
      return Blocked;
    }
    var target := FoldTarget(e.s, q);
    if target.None? {
      return Mismatch;
    }
    CutAndMake(e, q, FoldBreak(q, target.get), target.get);
    return Success;
  }

  lemma ShapeOf(s: St)
    requires Inv(s)
    ensures Shape(s)
  {
  }

  lemma TableDepth(s: St, q: Path)
    requires Shape(s) && q in s.tbl && q != []
    ensures |q| < s.levels && Parent(q) in s.tbl
  {
  }

  lemma MarkedNotFoldable(s: St, q: Path)
    requires exists i :: 0 <= i < ENTRIES && Kid(q, i) in s.leaf && HasMark(s.leaf[Kid(q, i)].d)
    ensures !Foldable(s, q)
  {
  }

  // RTT_DESTROY of the table at q: it goes by the reference count alone.
  method Destroy(e: Engine, q: Path, protected: bool) returns (reply: Reply)
    requires e.Valid() && q in e.s.tbl && q != [] && Unlocked(e.s, q)
    modifies e
    ensures e.Valid()
    ensures reply == Success <==>
              forall i :: 0 <= i < ENTRIES ==> Kid(q, i) in old(e.s).leaf && !CountsDesc(old(e.s).leaf[Kid(q, i)].d)
    ensures reply == Success ==>
              var left := if protected then Unassigned(Destroyed, DEFAULT_AP, Unmarked) else UnassignedNs(Unmarked);
              Replaced(old(e.s), e.s, q, left)
    ensures reply != Success ==> e.s == old(e.s)
  {
    ShapeOf(e.s);
    hide Inv, AlignInv, Replaced;
    ZeroCountIff(e.s, q);
    if e.s.tbl[q].rc != 0 {
      return Mismatch;
    }
    TableDepth(e.s, q);
    CutAndMake(e, q, DestroyBreak(q, protected), DestroyedAs(protected));
    return Success;
  }

  lemma ZeroCountIff(s: St, q: Path)
    requires Shape(s) && q in s.tbl
    ensures s.tbl[q].rc == 0 <==>
            forall i :: 0 <= i < ENTRIES ==> Kid(q, i) in s.leaf && !CountsDesc(s.leaf[Kid(q, i)].d)
  {
    if s.tbl[q].rc == 0 {
      ZeroCountIsBare(s, q);
    }
    if forall i :: 0 <= i < ENTRIES ==> Kid(q, i) in s.leaf && !CountsDesc(s.leaf[Kid(q, i)].d) {
      CountAll(s.leaf, s.tbl, q, ENTRIES, false);
    }
  }

  // RTT_CREATE of a table at granule addr over slot q.  A valid block is broken and invalidated first.
  method Create(e: Engine, q: Path, addr: nat) returns (reply: Reply)
    requires e.Valid() && Slot(e.s, q) && |q| < e.s.levels && !e.s.leaf[q].owes && !e.s.leaf[q].d.Broken?
    modifies e
    ensures e.Valid()
    ensures reply == Blocked <==> HasMark(old(e.s).leaf[q].d)
    ensures reply == Mismatch <==> !HasMark(old(e.s).leaf[q].d) && !Is(old(e.s), addr, Delegated)
    ensures reply != Success ==> e.s == old(e.s)
    ensures reply == Success ==>
              var p := PlantTable(old(e.s), q, addr, old(e.s).leaf[q].d);
              e.s.leaf == p.leaf && e.s.tbl == p.tbl && e.s.gran == p.gran && e.s.ops == p.ops
  {
    hide Inv, AlignInv;
    var d := e.s.leaf[q].d;
    if HasMark(d) {
      return Blocked;
    } else if !Is(e.s, addr, Delegated) {
      return Mismatch;
    }
    if Valid(d) {
      e.Do(Tree(CreateBreak(q)));
      e.Walk();
      e.Do(Tree(Invalidate(q)));
      e.Walk();
      PlantOver(old(e.s), e.s, q, addr, d);
      e.Do(Tree(CreateMake(q, addr)));
    } else {
      e.Do(Tree(CreateOver(q, addr)));
    }
    return Success;
  }
}
