/**
  * What holds in every reachable state of the stage 2 engine.
  */
module Stage2Inv {
  import opened Stage2
  import opened Stage2Steps

  // ---------------------------------------------------------------- the tree and its counts

  predicate InTree(leaf: map<Path, Leaf>, tbl: map<Path, Table>, q: Path) {
    q in leaf || q in tbl
  }

  // The slots and tables form a tree: tables have all their slots, everything hangs off a table.
  ghost predicate TreeInv(levels: nat, leaf: map<Path, Leaf>, tbl: map<Path, Table>) {
    && [] in tbl && levels > 0
    && (forall q :: q in leaf ==> q !in tbl)
    && (forall t, i :: t in tbl && 0 <= i < ENTRIES ==> InTree(leaf, tbl, Kid(t, i)))
    && (forall q :: q in leaf ==> q != [] && |q| <= levels && Parent(q) in tbl && Last(q) < ENTRIES)
    && (forall t :: t in tbl && t != [] ==> |t| < levels && Parent(t) in tbl && Last(t) < ENTRIES)
  }

  // Every reference count is exact.
  ghost predicate CountInv(leaf: map<Path, Leaf>, tbl: map<Path, Table>) {
    forall t :: t in tbl ==> tbl[t].rc == CountUpTo(leaf, tbl, t, ENTRIES)
  }

  // Breaks lead to plain entries, and a marked slot never owes an immediate invalidation.
  predicate LeafOk(l: Leaf) {
    && (l.d.Broken? ==> Settled(Body(l.d)))
    && (HasMark(l.d) ==> !l.owes)
  }

  ghost predicate LeafInv(leaf: map<Path, Leaf>) {
    forall q :: q in leaf ==> LeafOk(leaf[q])
  }

  // ---------------------------------------------------------------- operations and markers

  predicate HoldsMark(s: St, h: nat, q: Path) {
    && h in s.ops && q in s.leaf && MarkedBy(s.leaf[q].d, h)
    && match s.ops[h]
       case MapOp(slot, _, _, _, _, _, _) => slot == q && !s.leaf[q].d.mark.tlbi
       case UnmapOp(_, _, swept, _, _, _, _) => q in swept
  }

  ghost predicate MarkInv(s: St) {
    forall q :: q in s.leaf && HasMark(s.leaf[q].d) ==> HoldsMark(s, s.leaf[q].d.mark.handle, q)
  }

  ghost predicate MapOk(s: St, h: nat)
    requires h in s.ops && s.ops[h].MapOp?
  {
    var o := s.ops[h];
    && Slot(s, o.slot) && s.leaf[o.slot].d.Unassigned? && HoldsMark(s, h, o.slot)
    && o.off <= Pages(s, o.slot)
    && (o.coarse ==> !o.dev && !o.rollback)
    && (o.dev ==> s.leaf[o.slot].d.ripas == Empty || s.leaf[o.slot].d.ripas == Destroyed)
    && (o.dev ==> OneType(s, o.pa, o.off, o.coh))
    && (!o.dev ==> forall p :: o.pa <= p < o.pa + o.off ==> p in s.zero)
  }

  ghost predicate SweptOk(s: St, h: nat, q: Path)
    requires h in s.ops && s.ops[h].UnmapOp?
    requires q in s.ops[h].swept
  {
    var o := s.ops[h];
    && Slot(s, q) && Parent(q) == o.table && HoldsMark(s, h, q)
    && FlavourOf(o.swept[q], o.flavour)
    && (o.draining ==> !s.leaf[q].d.mark.tlbi)
    && (!o.draining && Backed(o.swept[q]) ==> Block(o.swept[q].pa, Pages(s, q)) <= o.owned)
  }

  ghost predicate UnmapOk(s: St, h: nat)
    requires h in s.ops && s.ops[h].UnmapOp?
  {
    var o := s.ops[h];
    && (forall q :: q in o.swept ==> SweptOk(s, h, q))
    && (o.flavour == FlUnprot ==> o.owned == {})
    && (!o.sync.NoSync? ==> !o.draining && o.sync.at in o.swept && o.sync.at in s.leaf
                            && HasMark(s.leaf[o.sync.at].d) && s.leaf[o.sync.at].d.mark.tlbi)
  }

  ghost predicate OpInv(s: St) {
    forall h :: h in s.ops ==> if s.ops[h].MapOp? then MapOk(s, h) else UnmapOk(s, h)
  }

  // ---------------------------------------------------------------- who owns which page

  datatype Owner = BySlot(q: Path) | ByTable(t: Path) | ByOp(h: nat)

  predicate SlotClaims(s: St, q: Path, p: nat) {
    q in s.leaf && Backed(Body(s.leaf[q].d)) && Within(Body(s.leaf[q].d).pa, Pages(s, q), p)
  }

  predicate TableClaims(s: St, t: Path, p: nat) {
    || (t in s.tbl && s.tbl[t].addr == p)
    || (t in s.leaf && s.leaf[t].d.Broken? && s.leaf[t].d.fix.Refold? && s.leaf[t].d.fix.table == p)
  }

  predicate OpClaims(s: St, h: nat, p: nat) {
    h in s.ops &&
    match s.ops[h]
    case MapOp(slot, pa, _, _, off, coarse, _) => Within(pa, if coarse then Pages(s, slot) else off, p)
    case UnmapOp(_, _, _, owned, _, _, _) => p in owned
  }

  predicate Claims(s: St, o: Owner, p: nat) {
    match o
    case BySlot(q) => SlotClaims(s, q, p)
    case ByTable(t) => TableClaims(s, t, p)
    case ByOp(h) => OpClaims(s, h, p)
  }

  // The tracked state of the pages an owner claims.
  function Want(s: St, o: Owner): (g: Granule) {
    match o
    case BySlot(q) => if q in s.leaf && Body(s.leaf[q].d).AssignedDev? then Mapped else Data
    case ByTable(t) => Rtt
    case ByOp(h) =>
      if h !in s.ops then Other
      else match s.ops[h]
           case MapOp(_, _, dev, _, _, coarse, _) => if coarse then Partial else if dev then Mapped else Data
           case UnmapOp(_, flavour, _, _, _, unit, _) =>
             if unit then Partial else if flavour == FlDev then Mapped else Data
  }

  // Whatever is claimed is tracked as its owner needs it, and nothing is claimed twice.
  ghost predicate OwnInv(s: St) {
    forall o, p :: Claims(s, o, p) ==> Is(s, p, Want(s, o))
  }

  ghost predicate SoleInv(s: St) {
    forall o, o', p :: Claims(s, o, p) && Claims(s, o', p) ==> o == o'
  }

  // ---------------------------------------------------------------- cached translations

  predicate Inside(s: St, c: Cached, q: Path, b: Desc)
    requires Valid(c.d)
  {
    Backed(c.d) ==> Backed(b) && b.pa <= c.d.pa && c.d.pa + Pages(s, c.slot) <= b.pa + Pages(s, q)
  }

  // The slot still holds what was cached.
  predicate Live(s: St, c: Cached, q: Path) {
    q == c.slot && q in s.leaf && s.leaf[q].d == c.d
  }

  // The slot, or the whole block it was part of, is about to be invalidated under the lock.
  predicate Owed(s: St, c: Cached, q: Path) {
    && q in s.leaf && s.leaf[q].owes && Valid(c.d) && Below(q, c.slot)
    && (q == c.slot || s.leaf[q].d.Broken?)
    && Inside(s, c, q, Body(s.leaf[q].d))
  }

  // The slot carries the tlbi-pending marker of an unmap that swept this very entry.
  predicate Pending(s: St, c: Cached, q: Path) {
    && q == c.slot && q in s.leaf && HasMark(s.leaf[q].d) && s.leaf[q].d.mark.tlbi
    && var h := s.leaf[q].d.mark.handle;
       && IsUnmap(s, h) && q in s.ops[h].swept && s.ops[h].swept[q] == c.d
       && s.ops[h].sync != Complete(q)
       && (c.agent == Cpu ==> s.ops[h].sync != Waiting(q))
  }

  predicate Justified(s: St, c: Cached, k: nat) {
    k <= |c.slot| && (Live(s, c, c.slot[..k]) || Owed(s, c, c.slot[..k]) || Pending(s, c, c.slot[..k]))
  }

  ghost predicate TlbInv(s: St) {
    forall c :: c in s.tlb ==>
      Valid(c.d) && |c.slot| <= s.levels && (c.agent == Smmu ==> s.da) && exists k :: Justified(s, c, k)
  }

  // No page is cached both through a block and through an entry below it.
  ghost predicate NestInv(s: St) {
    forall c, c' :: c in s.tlb && c' in s.tlb && Below(c.slot, c'.slot) ==> c.slot == c'.slot
  }

  ghost predicate Inv(s: St) {
    && TreeInv(s.levels, s.leaf, s.tbl)
    && LeafInv(s.leaf)
    && CountInv(s.leaf, s.tbl)
    && MarkInv(s)
    && OpInv(s)
    && OwnInv(s)
    && SoleInv(s)
    && TlbInv(s)
    && NestInv(s)
  }
}
