/**
  * Every action keeps each page with one owner and in the state its owner needs.
  */
module Stage2Own {
  import opened Basics
  import opened Stage2
  import opened Stage2Steps
  import opened Stage2Inv
  import opened Stage2Tree

  ghost predicate Unowned(s: St, p: nat) {
    forall o :: !Claims(s, o, p)
  }

  // No owner needs its pages in a free state, so a free page has no owner.
  lemma FreeIsUnowned(s: St, p: nat)
    requires OwnInv(s) && (p in s.gran ==> Free(s.gran[p]))
    ensures Unowned(s, p)
  {
    assert forall o :: Claims(s, o, p) ==> Is(s, p, Want(s, o));
  }

  // Pages that change hands only between `from` and `to`, or are taken by `to` from nobody, stay
  // with one owner.
  lemma SoleMove(s: St, r: St, from: Owner, to: Owner)
    requires SoleInv(s)
    requires forall o, p :: Claims(r, o, p) && o != to ==> Claims(s, o, p)
    requires forall p :: Claims(r, to, p) && from != to ==> !Claims(r, from, p)
    requires forall p :: Claims(r, to, p) ==> Claims(s, to, p) || Claims(s, from, p) || Unowned(s, p)
    ensures SoleInv(r)
  {
    forall o, o', p | Claims(r, o, p) && Claims(r, o', p)
      ensures o == o'
    {
      assert o != to ==> Claims(s, o, p);
      assert o' != to ==> Claims(s, o', p);
    }
  }

  ghost predicate SameClaims(s: St, r: St) {
    forall o, p :: Claims(r, o, p) ==> Claims(s, o, p) && Want(r, o) == Want(s, o)
  }

  // Claims and claimed pages as before.
  lemma OwnSame(s: St, r: St)
    requires OwnInv(s) && SoleInv(s) && SameClaims(s, r)
    requires forall p :: p in s.gran && !Free(s.gran[p]) ==> p in r.gran && r.gran[p] == s.gran[p]
    ensures OwnInv(r) && SoleInv(r)
  {
    forall o, p | Claims(r, o, p)
      ensures Is(r, p, Want(r, o))
    {
      assert Claims(s, o, p);
    }
    SoleMove(s, r, ByOp(0), ByOp(0));
  }

  // Rewriting a slot without moving the pages it stands for.
  lemma OwnRewrite(s: St, q: Path, l: Leaf, rc: int)
    requires OwnInv(s) && SoleInv(s) && TreeInv(s.levels, s.leaf, s.tbl) && q in s.leaf
    requires !s.leaf[q].d.Broken? && !(l.d.Broken? && l.d.fix.Refold?)
    requires Backed(Body(l.d)) ==>
               Backed(s.leaf[q].d) && Body(l.d).pa == s.leaf[q].d.pa && Body(l.d).AssignedDev? == s.leaf[q].d.AssignedDev?
    ensures OwnInv(WriteLeaf(s, q, l, rc)) && SoleInv(WriteLeaf(s, q, l, rc))
  {
    hide OwnInv, SoleInv, SameClaims;
    RewriteClaims(s, q, l, rc);
    OwnSame(s, WriteLeaf(s, q, l, rc));
  }

  lemma RewriteClaims(s: St, q: Path, l: Leaf, rc: int)
    requires TreeInv(s.levels, s.leaf, s.tbl) && q in s.leaf
    requires !s.leaf[q].d.Broken? && !(l.d.Broken? && l.d.fix.Refold?)
    requires Backed(Body(l.d)) ==>
               Backed(s.leaf[q].d) && Body(l.d).pa == s.leaf[q].d.pa && Body(l.d).AssignedDev? == s.leaf[q].d.AssignedDev?
    ensures SameClaims(s, WriteLeaf(s, q, l, rc))
  {
    WriteKeepsTree(s, q, l, rc);
    hide TreeInv;
  }

  // ---------------------------------------------------------------- hardware and environment

  lemma WorldKeepsOwn(s: St, a: WorldAct)
    requires OwnInv(s) && SoleInv(s) && WorldEnabled(s, a)
    ensures OwnInv(WorldStep(s, a)) && SoleInv(WorldStep(s, a))
  {
    var r := WorldStep(s, a);
    OwnSame(s, r);
  }

  // ---------------------------------------------------------------- rtt.c

  // The owner, before a table was planted at q, of a page that `o` owns afterwards.
  function Before(q: Path, o: Owner): (r: Owner) {
    if o.BySlot? && o.q != [] && Parent(o.q) == q then BySlot(q) else o
  }

  ghost predicate Plantable(s: St, q: Path, addr: nat, d: Desc) {
    && OwnInv(s) && SoleInv(s) && TreeInv(s.levels, s.leaf, s.tbl) && q in s.leaf && |q| < s.levels
    && Settled(d) && Body(s.leaf[q].d) == d && Is(s, addr, Delegated)
    && (s.leaf[q].d.Broken? ==> s.leaf[q].d.fix.Unfold?)
  }

  lemma PlantSlotClaims(s: St, q: Path, addr: nat, d: Desc, x: Path, p: nat)
    requires Plantable(s, q, addr, d)
    requires SlotClaims(PlantTable(s, q, addr, d), x, p)
    ensures var b := Before(q, BySlot(x)); Claims(s, b, p) && Want(PlantTable(s, q, addr, d), BySlot(x)) == Want(s, b)
  {
    hide Span, OwnInv, SoleInv, TreeInv, PlantTable, KidsOf, SlotClaims, Want, Before, Claims;
    if x in KidsOf(q) {
      KidClaims(s, q, addr, d, x, p);
    } else {
      OldSlotClaims(s, q, addr, d, x, p);
    }
  }

  lemma KidClaims(s: St, q: Path, addr: nat, d: Desc, x: Path, p: nat)
    requires Plantable(s, q, addr, d) && x in KidsOf(q)
    requires SlotClaims(PlantTable(s, q, addr, d), x, p)
    ensures var b := Before(q, BySlot(x)); Claims(s, b, p) && Want(PlantTable(s, q, addr, d), BySlot(x)) == Want(s, b)
  {
    hide Span, OwnInv, SoleInv, TreeInv, KidsOf;
    PlantLeaf(s, q, addr, d, x);
    KidsOfIff(q, x);
    PieceInside(d, Last(x), s.levels - |q| - 1, p);
  }

  lemma OldSlotClaims(s: St, q: Path, addr: nat, d: Desc, x: Path, p: nat)
    requires Plantable(s, q, addr, d) && x !in KidsOf(q)
    requires SlotClaims(PlantTable(s, q, addr, d), x, p)
    ensures var b := Before(q, BySlot(x)); Claims(s, b, p) && Want(PlantTable(s, q, addr, d), BySlot(x)) == Want(s, b)
  {
    hide Span, OwnInv, SoleInv, KidsOf;
    PlantLeaf(s, q, addr, d, x);
    KidsOfIff(q, x);
  }

  lemma PlantClaims(s: St, q: Path, addr: nat, d: Desc, o: Owner, p: nat)
    requires Plantable(s, q, addr, d)
    requires Claims(PlantTable(s, q, addr, d), o, p)
    ensures Is(PlantTable(s, q, addr, d), p, Want(PlantTable(s, q, addr, d), o))
    ensures if p == addr then o == ByTable(q) else Claims(s, Before(q, o), p)
  {
    hide OwnInv, SoleInv, TreeInv, Want, PlantTable;
    FreeIsUnowned(s, addr);
    match o
    case BySlot(x) => NewSlotClaims(s, q, addr, d, x, p);
    case ByTable(t) => NewTableClaims(s, q, addr, d, t, p);
    case ByOp(h) => NewOpClaims(s, q, addr, d, h, p);
  }

  lemma NewSlotClaims(s: St, q: Path, addr: nat, d: Desc, x: Path, p: nat)
    requires Plantable(s, q, addr, d) && Unowned(s, addr) && SlotClaims(PlantTable(s, q, addr, d), x, p)
    ensures Is(PlantTable(s, q, addr, d), p, Want(PlantTable(s, q, addr, d), BySlot(x)))
    ensures p != addr && Claims(s, Before(q, BySlot(x)), p)
  {
    hide SoleInv, TreeInv, SlotClaims, Want;
    PlantSlotClaims(s, q, addr, d, x, p);
    assert Is(s, p, Want(s, Before(q, BySlot(x))));
  }

  lemma NewTableClaims(s: St, q: Path, addr: nat, d: Desc, t: Path, p: nat)
    requires Plantable(s, q, addr, d) && Unowned(s, addr) && TableClaims(PlantTable(s, q, addr, d), t, p)
    ensures Is(PlantTable(s, q, addr, d), p, Want(PlantTable(s, q, addr, d), ByTable(t)))
    ensures if p == addr then t == q else Claims(s, ByTable(t), p)
  {
    hide SoleInv;
    PlantLeaf(s, q, addr, d, t);
    assert t != q ==> Claims(s, ByTable(t), p);
  }

  lemma NewOpClaims(s: St, q: Path, addr: nat, d: Desc, h: nat, p: nat)
    requires Plantable(s, q, addr, d) && Unowned(s, addr) && OpClaims(PlantTable(s, q, addr, d), h, p)
    ensures Is(PlantTable(s, q, addr, d), p, Want(PlantTable(s, q, addr, d), ByOp(h)))
    ensures p != addr && Claims(s, ByOp(h), p)
  {
    hide SoleInv, TreeInv;
    assert Claims(s, ByOp(h), p);
  }

  lemma PieceInside(d: Desc, i: nat, k: nat, p: nat)
    requires Backed(d) && i < ENTRIES
    requires Within(Piece(d, i, Span(k)).pa, Span(k), p)
    ensures Within(d.pa, Span(k + 1), p)
  {
    var n := Span(k);
    MulLe(i + 1, ENTRIES, n);
    assert (i + 1) * n == i * n + n;
  }

  lemma PiecesApart(d: Desc, i: nat, j: nat, k: nat, p: nat)
    requires Backed(d)
    requires Within(Piece(d, i, Span(k)).pa, Span(k), p) && Within(Piece(d, j, Span(k)).pa, Span(k), p)
    ensures i == j
  {
    var n := Span(k);
    assert (i + 1) * n == i * n + n && (j + 1) * n == j * n + n;
    if i < j {
      MulLe(i + 1, j, n);
    } else if j < i {
      MulLe(j + 1, i, n);
    }
  }

  lemma PlantKidsSole(s: St, q: Path, addr: nat, d: Desc, x: Path, x': Path, p: nat)
    requires Plantable(s, q, addr, d)
    requires x != [] && Parent(x) == q && SlotClaims(PlantTable(s, q, addr, d), x, p)
    requires x' != [] && Parent(x') == q && SlotClaims(PlantTable(s, q, addr, d), x', p)
    ensures x == x'
  {
    PlantLeaf(s, q, addr, d, x);
    PlantLeaf(s, q, addr, d, x');
    PiecesApart(d, Last(x), Last(x'), s.levels - |q| - 1, p);
    OfParent(x);
    OfParent(x');
  }

  lemma PlantSole(s: St, q: Path, addr: nat, d: Desc, o: Owner, o': Owner, p: nat)
    requires Plantable(s, q, addr, d)
    requires Claims(PlantTable(s, q, addr, d), o, p) && Claims(PlantTable(s, q, addr, d), o', p)
    ensures o == o'
  {
    PlantClaims(s, q, addr, d, o, p);
    PlantClaims(s, q, addr, d, o', p);
    if p != addr {
      assert Before(q, o) == Before(q, o');
      if Before(q, o) != o && Before(q, o') != o' {
        PlantKidsSole(s, q, addr, d, o.q, o'.q, p);
      } else if Before(q, o) != o || Before(q, o') != o' {
        PlantLeaf(s, q, addr, d, q);
      }
    }
  }

  lemma PlantKeepsOwn(s: St, q: Path, addr: nat, d: Desc)
    requires Plantable(s, q, addr, d)
    ensures OwnInv(PlantTable(s, q, addr, d)) && SoleInv(PlantTable(s, q, addr, d))
  {
    var r := PlantTable(s, q, addr, d);
    forall o, p | Claims(r, o, p)
      ensures Is(r, p, Want(r, o))
    {
      PlantClaims(s, q, addr, d, o, p);
    }
    forall o, o', p | Claims(r, o, p) && Claims(r, o', p)
      ensures o == o'
    {
      PlantSole(s, q, addr, d, o, o', p);
    }
  }

  // Every page of a block lies in one of its pieces.
  lemma PieceFor(d: Desc, k: nat, p: nat) returns (i: nat)
    requires Backed(d) && Within(d.pa, Span(k + 1), p)
    ensures i < ENTRIES && Within(Piece(d, i, Span(k)).pa, Span(k), p)
  {
    var n := Span(k);
    var x := p - d.pa;
    i := x / n;
    assert x == n * (x / n) + x % n;
    if i >= ENTRIES {
      MulLe(ENTRIES, i, n);
    }
  }

  lemma CutClaims(s: St, q: Path, next: Desc, o: Owner, p: nat)
    requires OwnInv(s) && TreeInv(s.levels, s.leaf, s.tbl) && q in s.tbl && q != []
    requires Backed(next) ==> FoldsTo(s, q, next)
    requires Claims(CutTable(s, q, next), o, p)
    ensures Is(CutTable(s, q, next), p, Want(CutTable(s, q, next), o))
    ensures o != BySlot(q) ==> Claims(s, o, p)
    ensures o == BySlot(q) ==> exists i: nat :: i < ENTRIES && Claims(s, BySlot(Kid(q, i)), p)
  {
    match o
    case BySlot(x) =>
      CutLeaf(s, q, next, x);
      if x == q {
        var i := PieceFor(next, s.levels - |q| - 1, p);
        KidOf(q, i);
        assert Claims(s, BySlot(Kid(q, i)), p);
      } else {
        assert Claims(s, o, p);
      }
    case ByTable(t) =>
      CutLeaf(s, q, next, t);
      assert Claims(s, o, p);
    case ByOp(h) =>
      assert Claims(s, o, p);
  }

  lemma CutKeepsOwn(s: St, q: Path, next: Desc)
    requires OwnInv(s) && SoleInv(s) && TreeInv(s.levels, s.leaf, s.tbl) && q in s.tbl && q != []
    requires Backed(next) ==> FoldsTo(s, q, next)
    ensures OwnInv(CutTable(s, q, next)) && SoleInv(CutTable(s, q, next))
  {
    var r := CutTable(s, q, next);
    forall o, p | Claims(r, o, p)
      ensures Is(r, p, Want(r, o))
      ensures o != BySlot(q) ==> Claims(s, o, p)
    {
      CutClaims(s, q, next, o, p);
    }
    forall o, p | Claims(r, BySlot(q), p) && o != BySlot(q)
      ensures !Claims(r, o, p)
    {
      CutClaims(s, q, next, BySlot(q), p);
      var i: nat :| i < ENTRIES && Claims(s, BySlot(Kid(q, i)), p);
      KidOf(q, i);
      CutLeaf(s, q, next, Kid(q, i));
      if Claims(r, o, p) {
        CutClaims(s, q, next, o, p);
      }
    }
  }

  lemma CutMakeKeepsOwn(s: St, q: Path)
    requires OwnInv(s) && SoleInv(s) && TreeInv(s.levels, s.leaf, s.tbl) && LeafInv(s.leaf)
    requires TreeEnabled(s, CutMake(q))
    ensures OwnInv(TreeStep(s, CutMake(q))) && SoleInv(TreeStep(s, CutMake(q)))
  {
    var r := TreeStep(s, CutMake(q));
    var addr := s.leaf[q].d.fix.table;
    assert Claims(s, ByTable(q), addr);
    forall o, p | Claims(r, o, p)
      ensures Claims(s, o, p) && Want(r, o) == Want(s, o) && p != addr
    {
      assert Claims(s, o, p);
    }
    forall o, p | Claims(r, o, p)
      ensures Is(r, p, Want(r, o))
    {
      assert Is(s, p, Want(s, o));
    }
    SoleMove(s, r, ByOp(0), ByOp(0));
  }

  // Rewriting an entry in place keeps its output address.
  lemma EntryKeepsOwn(s: St, a: TreeAct)
    requires OwnInv(s) && SoleInv(s) && TreeInv(s.levels, s.leaf, s.tbl) && TreeEnabled(s, a)
    requires a.CreateBreak? || a.SetRipas? || a.SetAp? || a.DevValidate?
    ensures OwnInv(TreeStep(s, a)) && SoleInv(TreeStep(s, a))
  {
    hide OwnInv, SoleInv;
    OwnRewrite(s, a.q, TreeStep(s, a).leaf[a.q], 0);
  }

  lemma TreeKeepsOwn(s: St, a: TreeAct)
    requires OwnInv(s) && SoleInv(s) && TreeInv(s.levels, s.leaf, s.tbl) && LeafInv(s.leaf)
    requires TreeEnabled(s, a)
    ensures OwnInv(TreeStep(s, a)) && SoleInv(TreeStep(s, a))
  {
    hide OwnInv, SoleInv, TreeInv, Span;
    match a
    case Invalidate(q) => OwnSame(s, TreeStep(s, a));
    case CreateOver(q, addr) => PlantKeepsOwn(s, q, addr, s.leaf[q].d);
    case CreateMake(q, addr) => PlantKeepsOwn(s, q, addr, s.leaf[q].d.fix.was);
    case FoldBreak(q, next) => CutKeepsOwn(s, q, next);
    case DestroyBreak(q, protected) => CutKeepsOwn(s, q, DestroyedAs(protected));
    case CutMake(q) => CutMakeKeepsOwn(s, q);
    case _ => EntryKeepsOwn(s, a);
  }

  // ---------------------------------------------------------------- rtt_map.c

  // One operation takes free pages, or lets go of pages, and moves all it keeps to the state it needs.
  lemma OpKeepsOwn(s: St, r: St, h: nat)
    requires OwnInv(s) && SoleInv(s) && r.levels == s.levels && r.leaf == s.leaf && r.tbl == s.tbl
    requires forall x :: x != h ==> (x in r.ops <==> x in s.ops) && (x in s.ops ==> r.ops[x] == s.ops[x])
    requires forall p :: Claims(r, ByOp(h), p) ==> (Claims(s, ByOp(h), p) || (p in s.gran && Free(s.gran[p])))
                                                   && Is(r, p, Want(r, ByOp(h)))
    requires forall p :: p in s.gran && !Free(s.gran[p]) && !Claims(s, ByOp(h), p) ==>
               p in r.gran && r.gran[p] == s.gran[p]
    ensures OwnInv(r) && SoleInv(r)
  {
    forall o, p | o != ByOp(h)
      ensures Claims(r, o, p) ==> Claims(s, o, p) && Want(r, o) == Want(s, o)
    {
    }
    forall o, p | Claims(r, o, p)
      ensures Is(r, p, Want(r, o))
    {
      if o != ByOp(h) {
        assert Claims(s, o, p) && Is(s, p, Want(s, o));
        assert !Claims(s, ByOp(h), p);
      }
    }
    forall p | Claims(r, ByOp(h), p)
      ensures Claims(s, ByOp(h), p) || Unowned(s, p)
    {
      if !Claims(s, ByOp(h), p) {
        FreeIsUnowned(s, p);
      }
    }
    SoleMove(s, r, ByOp(h), ByOp(h));
  }

  // A change to one slot that stands for no pages, and to one operation that gains none.
  lemma MarkKeepsOwn(s: St, r: St, q: Path, h: nat)
    requires OwnInv(s) && SoleInv(s) && r.levels == s.levels && r.gran == s.gran
    requires forall x :: x != q ==> (x in r.leaf <==> x in s.leaf) && (x in s.leaf ==> r.leaf[x] == s.leaf[x])
    requires q in r.leaf ==> !Backed(r.leaf[q].d) && !r.leaf[q].d.Broken?
    requires forall t :: t in r.tbl ==> t in s.tbl && r.tbl[t].addr == s.tbl[t].addr
    requires forall x :: x != h ==> (x in r.ops <==> x in s.ops) && (x in s.ops ==> r.ops[x] == s.ops[x])
    requires forall p :: Claims(r, ByOp(h), p) ==> Claims(s, ByOp(h), p) && Want(r, ByOp(h)) == Want(s, ByOp(h))
    ensures OwnInv(r) && SoleInv(r)
  {
    forall o, p | Claims(r, o, p)
      ensures Claims(s, o, p) && Want(r, o) == Want(s, o)
    {
    }
    OwnSame(s, r);
  }

  ghost predicate Sound(s: St) {
    TreeInv(s.levels, s.leaf, s.tbl) && OwnInv(s) && SoleInv(s)
  }

  lemma FinishKeepsOwn(s: St, h: nat)
    requires Sound(s) && MapEnabled(s, Finish(h))
    ensures OwnInv(FinishStep(s, h)) && SoleInv(FinishStep(s, h))
  {
    var r := FinishStep(s, h);
    var q := s.ops[h].slot;
    forall o, p | Claims(r, o, p)
      ensures Claims(s, if o == BySlot(q) then ByOp(h) else o, p) && o != ByOp(h)
      ensures Want(r, o) == Want(s, if o == BySlot(q) then ByOp(h) else o)
    {
    }
    SoleMove(s, r, ByOp(h), BySlot(q));
  }

  lemma MapInitKeepsOwn(s: St, q: Path, pa: nat)
    requires Sound(s) && MapEnabled(s, MapInit(q, pa))
    ensures OwnInv(MapInitStep(s, q, pa)) && SoleInv(MapInitStep(s, q, pa))
  {
    var r := MapInitStep(s, q, pa);
    FreeIsUnowned(s, pa);
    forall o, p | Claims(r, o, p)
      ensures if o == BySlot(q) then p == pa && Want(r, o) == Data else Claims(s, o, p) && Want(r, o) == Want(s, o)
    {
    }
    forall o, p | Claims(r, o, p)
      ensures Is(r, p, Want(r, o))
    {
      if o != BySlot(q) {
        assert Is(s, p, Want(s, o));
      }
    }
    SoleMove(s, r, BySlot(q), BySlot(q));
  }

  lemma TakePageKeepsOwn(s: St, h: nat)
    requires Sound(s) && MapEnabled(s, TakePage(h))
    ensures OwnInv(TakePageStep(s, h)) && SoleInv(TakePageStep(s, h))
  {
    var r := TakePageStep(s, h);
    forall p | Claims(r, ByOp(h), p)
      ensures (Claims(s, ByOp(h), p) || Is(s, p, Delegated)) && Is(r, p, Want(r, ByOp(h)))
    {
      assert Claims(s, ByOp(h), p) ==> Is(s, p, Want(s, ByOp(h)));
    }
    OpKeepsOwn(s, r, h);
  }

  lemma StampKeepsOwn(s: St, q: Path, h: nat, pa: nat, dev: bool)
    requires Sound(s) && MapEnabled(s, Stamp(q, h, pa, dev))
    ensures OwnInv(StampStep(s, q, h, pa, dev)) && SoleInv(StampStep(s, q, h, pa, dev))
  {
    hide OwnInv, SoleInv, Span;
    MarkKeepsOwn(s, StampStep(s, q, h, pa, dev), q, h);
  }

  lemma UndoneKeepsOwn(s: St, h: nat)
    requires Sound(s) && MapEnabled(s, Undone(h))
    ensures OwnInv(UndoneStep(s, h)) && SoleInv(UndoneStep(s, h))
  {
    hide OwnInv, SoleInv, Span;
    MarkKeepsOwn(s, UndoneStep(s, h), s.ops[h].slot, h);
  }

  lemma SlotMapKeepsOwn(s: St, a: MapAct)
    requires Sound(s) && MapEnabled(s, a)
    requires a.Stamp? || a.Undone? || a.UnprotMap?
    ensures OwnInv(MapStep(s, a)) && SoleInv(MapStep(s, a))
  {
    hide OwnInv, SoleInv, Span, StampStep, UndoneStep;
    if a.Stamp? {
      StampKeepsOwn(s, a.q, a.h, a.pa, a.dev);
    } else if a.Undone? {
      UndoneKeepsOwn(s, a.h);
    } else {
      MarkKeepsOwn(s, MapStep(s, a), a.q, 0);
    }
  }

  lemma WholeMapKeepsOwn(s: St, a: MapAct)
    requires Sound(s) && MapEnabled(s, a)
    requires (a.TakeWhole? || a.Claim? || a.Publish?) && MapOk(s, a.h)
    ensures OwnInv(MapStep(s, a)) && SoleInv(MapStep(s, a))
  {
    var r := MapStep(s, a);
    forall p | Claims(r, ByOp(a.h), p)
      ensures (Claims(s, ByOp(a.h), p) || Is(s, p, Delegated)) && Is(r, p, Want(r, ByOp(a.h)))
    {
      assert Claims(s, ByOp(a.h), p) ==> Is(s, p, Want(s, ByOp(a.h)));
    }
    OpKeepsOwn(s, r, a.h);
  }

  lemma PageMapKeepsOwn(s: St, a: MapAct)
    requires Sound(s) && MapEnabled(s, a)
    requires (a.Zero? || a.Fail? || a.Undo?) && MapOk(s, a.h)
    ensures OwnInv(MapStep(s, a)) && SoleInv(MapStep(s, a))
  {
    var r := MapStep(s, a);
    forall p | Claims(r, ByOp(a.h), p)
      ensures (Claims(s, ByOp(a.h), p) || Is(s, p, Delegated)) && Is(r, p, Want(r, ByOp(a.h)))
    {
      assert Claims(s, ByOp(a.h), p) ==> Is(s, p, Want(s, ByOp(a.h)));
    }
    OpKeepsOwn(s, r, a.h);
  }

  lemma MapKeepsOwn(s: St, a: MapAct)
    requires Sound(s) && OpInv(s) && MapEnabled(s, a)
    ensures OwnInv(MapStep(s, a)) && SoleInv(MapStep(s, a))
  {
    match a
    case TakePage(h) => TakePageKeepsOwn(s, h);
    case Finish(h) => FinishKeepsOwn(s, h);
    case MapInit(q, pa) => MapInitKeepsOwn(s, q, pa);
    case Stamp(_, _, _, _) => SlotMapKeepsOwn(s, a);
    case Undone(_) => SlotMapKeepsOwn(s, a);
    case UnprotMap(_, _, _) => SlotMapKeepsOwn(s, a);
    case TakeWhole(_) => WholeMapKeepsOwn(s, a);
    case Claim(_) => WholeMapKeepsOwn(s, a);
    case Publish(_) => WholeMapKeepsOwn(s, a);
    case Zero(_) => PageMapKeepsOwn(s, a);
    case Fail(_) => PageMapKeepsOwn(s, a);
    case Undo(_) => PageMapKeepsOwn(s, a);
  }

  // ---------------------------------------------------------------- rtt_unmap.c

  lemma SweepKeepsOwn(s: St, h: nat, q: Path, unit: bool)
    requires Sound(s) && UnmapEnabled(s, Sweep(h, q, unit))
    ensures OwnInv(SweepStep(s, h, q, unit)) && SoleInv(SweepStep(s, h, q, unit))
  {
    var r := SweepStep(s, h, q, unit);
    if unit {
      UnitIsAlone(s, h, q);
    }
    forall o, p | Claims(r, o, p)
      ensures o != BySlot(q)
      ensures if o == ByOp(h) then Claims(s, o, p) || Claims(s, BySlot(q), p)
              else Claims(s, o, p) && Want(r, o) == Want(s, o)
    {
    }
    forall o, p | Claims(r, o, p)
      ensures Is(r, p, Want(r, o))
    {
      SweptPageState(s, h, q, unit, o, p);
    }
    SoleMove(s, r, BySlot(q), ByOp(h));
  }

  // A coarse unit is always the only block an unmap has queued: any page queued before it would
  // lie in the same tracking region, hence in the unit, and have two owners.
  lemma UnitIsAlone(s: St, h: nat, q: Path)
    requires SoleInv(s) && UnmapEnabled(s, Sweep(h, q, true))
    ensures s.ops[h].owned == {}
  {
    var d := s.leaf[q].d;
    forall p | p in s.ops[h].owned
      ensures false
    {
      SameRegion(p, d.pa, Region(s));
      assert Claims(s, BySlot(q), p) && Claims(s, ByOp(h), p);
    }
  }

  lemma SameRegion(p: nat, lo: nat, n: nat)
    requires n > 0 && lo % n == 0 && p / n == lo / n
    ensures Within(lo, n, p)
  {
    assert p == n * (p / n) + p % n;
    assert lo == n * (lo / n) + lo % n;
  }

  lemma SweptPageState(s: St, h: nat, q: Path, unit: bool, o: Owner, p: nat)
    requires Sound(s) && UnmapEnabled(s, Sweep(h, q, unit)) && (unit ==> s.ops[h].owned == {})
    requires Claims(SweepStep(s, h, q, unit), o, p)
    ensures Is(SweepStep(s, h, q, unit), p, Want(SweepStep(s, h, q, unit), o))
  {
    var r := SweepStep(s, h, q, unit);
    if o == ByOp(h) {
      assert Claims(s, o, p) || Claims(s, BySlot(q), p);
    } else {
      assert Claims(s, o, p);
      assert Claims(s, BySlot(q), p) ==> o == BySlot(q);
    }
  }

  lemma QuietUnmapKeepsOwn(s: St, a: UnmapAct)
    requires Sound(s) && UnmapEnabled(s, a)
    requires a.TlbiIssue? || a.SyncDone? || a.DrainStart?
    ensures OwnInv(UnmapStep(s, a)) && SoleInv(UnmapStep(s, a))
  {
    var r := UnmapStep(s, a);
    forall p | Claims(r, ByOp(a.h), p)
      ensures (Claims(s, ByOp(a.h), p) || Is(s, p, Delegated)) && Is(r, p, Want(r, ByOp(a.h)))
    {
      assert Claims(s, ByOp(a.h), p) ==> Is(s, p, Want(s, ByOp(a.h)));
    }
    OpKeepsOwn(s, r, a.h);
  }

  lemma MarkUnmapKeepsOwn(s: St, a: UnmapAct)
    requires Sound(s) && UnmapEnabled(s, a)
    requires a.TlbiClear? || a.Unmark?
    ensures OwnInv(UnmapStep(s, a)) && SoleInv(UnmapStep(s, a))
  {
    if a.Unmark? {
      UnmarkKeepsOwn(s, a.h, a.q);
    } else {
      MarkKeepsOwn(s, UnmapStep(s, a), s.ops[a.h].sync.at, a.h);
    }
  }

  lemma UnmarkKeepsOwn(s: St, h: nat, q: Path)
    requires Sound(s) && UnmapEnabled(s, Unmark(h, q))
    ensures OwnInv(UnmapStep(s, Unmark(h, q))) && SoleInv(UnmapStep(s, Unmark(h, q)))
  {
    MarkKeepsOwn(s, UnmapStep(s, Unmark(h, q)), q, h);
  }

  lemma PageUnmapKeepsOwn(s: St, a: UnmapAct)
    requires Sound(s) && UnmapEnabled(s, a)
    requires a.Open? || a.Close? || a.DrainPage? || a.DrainPublish?
    ensures OwnInv(UnmapStep(s, a)) && SoleInv(UnmapStep(s, a))
  {
    var r := UnmapStep(s, a);
    forall p | Claims(r, ByOp(a.h), p)
      ensures (Claims(s, ByOp(a.h), p) || Is(s, p, Delegated)) && Is(r, p, Want(r, ByOp(a.h)))
    {
      assert Claims(s, ByOp(a.h), p) ==> Is(s, p, Want(s, ByOp(a.h)));
    }
    OpKeepsOwn(s, r, a.h);
  }

  lemma UnmapKeepsOwn(s: St, a: UnmapAct)
    requires Sound(s) && UnmapEnabled(s, a)
    ensures OwnInv(UnmapStep(s, a)) && SoleInv(UnmapStep(s, a))
  {
    match a
    case Sweep(h, q, unit) => SweepKeepsOwn(s, h, q, unit);
    case TlbiIssue(_, _) => QuietUnmapKeepsOwn(s, a);
    case SyncDone(_) => QuietUnmapKeepsOwn(s, a);
    case DrainStart(_) => QuietUnmapKeepsOwn(s, a);
    case TlbiClear(_) => MarkUnmapKeepsOwn(s, a);
    case Unmark(_, _) => MarkUnmapKeepsOwn(s, a);
    case Open(_, _, _) => PageUnmapKeepsOwn(s, a);
    case Close(_) => PageUnmapKeepsOwn(s, a);
    case DrainPage(_, _) => PageUnmapKeepsOwn(s, a);
    case DrainPublish(_) => PageUnmapKeepsOwn(s, a);
  }
}
