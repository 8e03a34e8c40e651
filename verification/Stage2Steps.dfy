/**
  * The actions of the stage 2 engine, grouped by the source file that performs them.  An action is
  * possible in a state when it is enabled there, and then leads to exactly one state.
  */
module Stage2Steps {
  import opened Stage2

  // ---------------------------------------------------------------- hardware and environment

  datatype WorldAct =
    // A walker caches a valid leaf, or forgets what it cached.
    | Fill(c: Cached)
    | Forget(c: Cached)
    // The Realm writes a protected page through a cached translation.
    | RealmWrite(c: Cached, p: nat)
    // Another command changes a granule this tree does not use.
    | Elsewhere(p: nat, st: Granule)

  predicate WorldEnabled(s: St, a: WorldAct) {
    match a
    case Fill(c) =>
      c.slot in s.leaf && s.leaf[c.slot].d == c.d && Valid(c.d) && (c.agent == Smmu ==> s.da)
    case Forget(c) => true
    case RealmWrite(c, p) => c in s.tlb && Valid(c.d) && Backed(c.d) && Within(c.d.pa, Pages(s, c.slot), p)
    case Elsewhere(p, st) => (p !in s.gran || Free(s.gran[p])) && Free(st)
  }

  function WorldStep(s: St, a: WorldAct): (r: St)
    requires WorldEnabled(s, a)
  {
    match a
    case Fill(c) => s.(tlb := s.tlb + {c})
    case Forget(c) => s.(tlb := s.tlb - {c})
    case RealmWrite(c, p) => s.(zero := s.zero - {p})
    case Elsewhere(p, st) => PutGran(s, p, st).(zero := s.zero - {p})
  }

  // ---------------------------------------------------------------- rtt.c

  datatype TreeAct =
    | Invalidate(q: Path)
    | CreateOver(q: Path, addr: nat)
    | CreateBreak(q: Path)
    | CreateMake(q: Path, addr: nat)
    | FoldBreak(q: Path, next: Desc)
    | DestroyBreak(q: Path, protected: bool)
    | CutMake(q: Path)
    | SetRipas(q: Path, to: Ripas, destroyedToo: bool)
    | SetAp(q: Path, ap: Ap)
    | DevValidate(q: Path, attr: nat)

  predicate TreeEnabled(s: St, a: TreeAct) {
    match a
    case Invalidate(q) => Slot(s, q) && s.leaf[q].owes
    case CreateOver(q, addr) =>
      Idle(s, q) && |q| < s.levels && !Valid(s.leaf[q].d) && Is(s, addr, Delegated)
    case CreateBreak(q) => Idle(s, q) && |q| < s.levels && Valid(s.leaf[q].d)
    case CreateMake(q, addr) =>
      && Slot(s, q) && |q| < s.levels && !s.leaf[q].owes
      && s.leaf[q].d.Broken? && s.leaf[q].d.fix.Unfold? && Is(s, addr, Delegated)
    case FoldBreak(q, next) =>
      && q != [] && q in s.tbl && Parent(q) in s.tbl
      && s.tbl[q].rc == (if Backed(next) then ENTRIES else 0) && FoldsTo(s, q, next)
    case DestroyBreak(q, protected) =>
      q != [] && q in s.tbl && Parent(q) in s.tbl && s.tbl[q].rc == 0 && Unlocked(s, q)
    case CutMake(q) =>
      Slot(s, q) && !s.leaf[q].owes && s.leaf[q].d.Broken? && s.leaf[q].d.fix.Refold?
    case SetRipas(q, to, destroyedToo) => Idle(s, q) && UpdateRipas(s.leaf[q].d, to, destroyedToo).Some?
    case SetAp(q, ap) => Idle(s, q) && (s.leaf[q].d.Unassigned? || Backed(s.leaf[q].d))
    case DevValidate(q, attr) => Idle(s, q) && s.leaf[q].d.AssignedDev? && s.leaf[q].d.ripas == Empty
  }

  // The entry that replaces a destroyed table.
  function DestroyedAs(protected: bool): (d: Desc) {
    if protected then Unassigned(Destroyed, DEFAULT_AP, Unmarked) else UnassignedNs(Unmarked)
  }

  function WithAp(d: Desc, ap: Ap): (r: Desc)
    requires d.Unassigned? || Backed(d)
  {
    match d
    case Unassigned(r, _, m) => Unassigned(r, ap, m)
    case Assigned(r, pa, _) => Assigned(r, pa, ap)
    case AssignedDev(r, pa, _, t) => AssignedDev(r, pa, NoExec(ap), t)
  }

  function TreeStep(s: St, a: TreeAct): (r: St)
    requires TreeEnabled(s, a)
  {
    match a
    case Invalidate(q) => Flush(s.(leaf := s.leaf[q := s.leaf[q].(owes := false)]), q)
    case CreateOver(q, addr) => PlantTable(s, q, addr, s.leaf[q].d)
    case CreateBreak(q) => WriteLeaf(s, q, Leaf(Broken(Unfold(s.leaf[q].d)), true), 0)
    case CreateMake(q, addr) => PlantTable(s, q, addr, s.leaf[q].d.fix.was)
    case FoldBreak(q, next) => CutTable(s, q, next)
    case DestroyBreak(q, protected) => CutTable(s, q, DestroyedAs(protected))
    case CutMake(q) => PutGran(WriteDesc(s, q, s.leaf[q].d.fix.next, 0), s.leaf[q].d.fix.table, Delegated)
    case SetRipas(q, to, destroyedToo) =>
      var d := s.leaf[q].d;
      WriteLeaf(s, q, Leaf(UpdateRipas(d, to, destroyedToo).get, to == Empty && Backed(d) && d.ripas != Empty), 0)
    case SetAp(q, ap) => WriteLeaf(s, q, Leaf(WithAp(s.leaf[q].d, ap), Valid(s.leaf[q].d)), 0)
    case DevValidate(q, attr) =>
      WriteDesc(s, q, AssignedDev(Dev, s.leaf[q].d.pa, s.leaf[q].d.ap, attr), 0)
  }

  // ---------------------------------------------------------------- rtt_map.c

  datatype MapAct =
    | Stamp(q: Path, h: nat, pa: nat, dev: bool)
    | TakePage(h: nat)
    | TakeWhole(h: nat)
    | Claim(h: nat)
    | Zero(h: nat)
    | Publish(h: nat)
    | Finish(h: nat)
    | Fail(h: nat)
    | Undo(h: nat)
    | Undone(h: nat)
    | MapInit(q: Path, pa: nat)
    | UnprotMap(q: Path, pa: nat, attr: nat)

  predicate IsMap(s: St, h: nat) {
    h in s.ops && s.ops[h].MapOp? && Slot(s, s.ops[h].slot)
    && s.leaf[s.ops[h].slot].d.Unassigned? && MarkedBy(s.leaf[s.ops[h].slot].d, h)
  }

  predicate MapEnabled(s: St, a: MapAct) {
    match a
    case Stamp(q, h, pa, dev) =>
      && Idle(s, q) && s.leaf[q].d.Unassigned? && h !in s.ops && s.levels - |q| <= BLOCK_HEIGHT
      && pa % Pages(s, q) == 0
      && (dev ==> s.leaf[q].d.ripas == Empty || s.leaf[q].d.ripas == Destroyed)
    case TakePage(h) =>
      && IsMap(s, h) && !s.ops[h].coarse && !s.ops[h].rollback && s.ops[h].off < Pages(s, s.ops[h].slot)
      && Is(s, s.ops[h].pa + s.ops[h].off, Delegated)
      && (s.ops[h].dev && s.ops[h].off > 0 ==> Coh(s, s.ops[h].pa + s.ops[h].off) == s.ops[h].coh)
    case TakeWhole(h) =>
      && IsMap(s, h) && !s.ops[h].coarse && !s.ops[h].rollback && s.ops[h].off == 0 && s.ops[h].dev
      && RangeIs(s.gran, s.ops[h].pa, Pages(s, s.ops[h].slot), Delegated)
      && OneType(s, s.ops[h].pa, Pages(s, s.ops[h].slot), Coh(s, s.ops[h].pa))
    case Claim(h) =>
      && IsMap(s, h) && !s.ops[h].coarse && !s.ops[h].rollback && s.ops[h].off == 0 && !s.ops[h].dev
      && RangeIs(s.gran, s.ops[h].pa, Pages(s, s.ops[h].slot), Delegated)
    case Zero(h) => IsMap(s, h) && s.ops[h].coarse && s.ops[h].off < Pages(s, s.ops[h].slot)
    case Publish(h) => IsMap(s, h) && s.ops[h].coarse && s.ops[h].off == Pages(s, s.ops[h].slot)
    case Finish(h) =>
      IsMap(s, h) && !s.ops[h].coarse && !s.ops[h].rollback && s.ops[h].off == Pages(s, s.ops[h].slot)
    case Fail(h) => IsMap(s, h) && !s.ops[h].coarse && !s.ops[h].rollback && s.ops[h].off < Pages(s, s.ops[h].slot)
    case Undo(h) => IsMap(s, h) && s.ops[h].rollback && s.ops[h].off > 0
    case Undone(h) => IsMap(s, h) && s.ops[h].rollback && s.ops[h].off == 0
    case MapInit(q, pa) => Idle(s, q) && s.leaf[q].d.Unassigned? && |q| == s.levels && Is(s, pa, Delegated)
    case UnprotMap(q, pa, attr) =>
      Idle(s, q) && s.leaf[q].d.UnassignedNs? && s.levels - |q| <= BLOCK_HEIGHT && pa % Pages(s, q) == 0
  }

  function StampStep(s: St, q: Path, h: nat, pa: nat, dev: bool): (r: St)
    requires Idle(s, q) && s.leaf[q].d.Unassigned?
  {
    SetOp(WriteDesc(s, q, SetMark(s.leaf[q].d, Marked(h, false)), 1), h, MapOp(q, pa, dev, 0, 0, false, false))
  }

  function TakePageStep(s: St, h: nat): (r: St)
    requires IsMap(s, h)
  {
    var o := s.ops[h];
    var p := o.pa + o.off;
    SetOp(s, h, o.(off := o.off + 1, coh := if o.off == 0 then Coh(s, p) else o.coh))
      .(gran := s.gran[p := if o.dev then Mapped else Data], zero := if o.dev then s.zero else s.zero + {p})
  }

  function MapStep(s: St, a: MapAct): (r: St)
    requires MapEnabled(s, a)
  {
    match a
    case Stamp(q, h, pa, dev) => StampStep(s, q, h, pa, dev)
    case TakePage(h) => TakePageStep(s, h)
    case TakeWhole(h) =>
      var o := s.ops[h];
      SetOp(s, h, o.(off := Pages(s, o.slot), coh := Coh(s, o.pa)))
        .(gran := SetRange(s.gran, o.pa, Pages(s, o.slot), Mapped))
    case Claim(h) =>
      var o := s.ops[h];
      SetOp(s, h, o.(coarse := true)).(gran := SetRange(s.gran, o.pa, Pages(s, o.slot), Partial))
    case Zero(h) =>
      var o := s.ops[h];
      SetOp(s, h, o.(off := o.off + 1)).(zero := s.zero + {o.pa + o.off})
    case Publish(h) =>
      var o := s.ops[h];
      SetOp(s, h, o.(coarse := false)).(gran := SetRange(s.gran, o.pa, Pages(s, o.slot), Data))
    case Finish(h) => FinishStep(s, h)
    case Fail(h) => SetOp(s, h, s.ops[h].(rollback := true))
    case Undo(h) =>
      var o := s.ops[h];
      PutGran(SetOp(s, h, o.(off := o.off - 1)), o.pa + o.off - 1, Delegated)
    case Undone(h) => UndoneStep(s, h)
    case MapInit(q, pa) => MapInitStep(s, q, pa)
    case UnprotMap(q, pa, attr) => WriteDesc(s, q, AssignedNs(pa, attr), 0)
  }

  function FinishStep(s: St, h: nat): (r: St)
    requires IsMap(s, h)
  {
    var o := s.ops[h];
    DropOp(WriteDesc(s, o.slot, MapResult(s.leaf[o.slot].d, o.pa, o.dev), 0), h)
  }

  function UndoneStep(s: St, h: nat): (r: St)
    requires IsMap(s, h)
  {
    DropOp(WriteDesc(s, s.ops[h].slot, SetMark(s.leaf[s.ops[h].slot].d, Unmarked), -1), h)
  }

  function MapInitStep(s: St, q: Path, pa: nat): (r: St)
    requires Idle(s, q) && s.leaf[q].d.Unassigned?
  {
    PutGran(WriteDesc(s, q, Assigned(Ram, pa, s.leaf[q].d.ap), 1), pa, Data).(zero := s.zero - {pa})
  }

  // ---------------------------------------------------------------- rtt_unmap.c

  datatype UnmapAct =
    | Open(h: nat, table: Path, flavour: Flavour)
    | Sweep(h: nat, q: Path, unit: bool)
    | TlbiIssue(h: nat, q: Path)
    | SyncDone(h: nat)
    | TlbiClear(h: nat)
    | DrainStart(h: nat)
    | DrainPage(h: nat, p: nat)
    | DrainPublish(h: nat)
    | Unmark(h: nat, q: Path)
    | Close(h: nat)

  predicate IsUnmap(s: St, h: nat) {
    h in s.ops && s.ops[h].UnmapOp?
  }

  predicate OwnsSlot(s: St, h: nat, q: Path) {
    IsUnmap(s, h) && q in s.ops[h].swept && Slot(s, q) && MarkedBy(s.leaf[q].d, h)
  }

  // One sweep never queues blocks of two tracking regions.
  predicate InRegion(s: St, owned: set<nat>, d: Desc) {
    Backed(d) ==> forall p :: p in owned ==> p / Region(s) == d.pa / Region(s)
  }

  // The block at q is the whole of its tracking region.
  predicate WholeRegion(s: St, q: Path) {
    q in s.leaf && Backed(s.leaf[q].d) && s.leaf[q].d.pa % Region(s) == 0 && Pages(s, q) == Region(s)
  }

  predicate UnmapEnabled(s: St, a: UnmapAct) {
    match a
    case Open(h, table, flavour) => h !in s.ops
    case Sweep(h, q, unit) =>
      && IsUnmap(s, h) && !s.ops[h].draining && !s.ops[h].unit
      && Idle(s, q) && Parent(q) == s.ops[h].table
      && FlavourOf(s.leaf[q].d, s.ops[h].flavour)
      && InRegion(s, s.ops[h].owned, s.leaf[q].d)
      && (unit ==> WholeRegion(s, q))
    case TlbiIssue(h, q) =>
      OwnsSlot(s, h, q) && s.leaf[q].d.mark.tlbi && s.ops[h].sync.NoSync?
    case SyncDone(h) => IsUnmap(s, h) && s.ops[h].sync.Waiting?
    case TlbiClear(h) =>
      IsUnmap(s, h) && s.ops[h].sync.Complete? && OwnsSlot(s, h, s.ops[h].sync.at)
    case DrainStart(h) =>
      && IsUnmap(s, h) && !s.ops[h].draining && s.ops[h].sync.NoSync?
      && forall q :: q in s.ops[h].swept ==> OwnsSlot(s, h, q) && !s.leaf[q].d.mark.tlbi
    case DrainPage(h, p) => IsUnmap(s, h) && s.ops[h].draining && !s.ops[h].unit && p in s.ops[h].owned
    case DrainPublish(h) => IsUnmap(s, h) && s.ops[h].draining && s.ops[h].unit
    case Unmark(h, q) => OwnsSlot(s, h, q) && s.ops[h].draining && s.ops[h].owned == {}
    case Close(h) => IsUnmap(s, h) && s.ops[h].swept == map[] && s.ops[h].owned == {}
  }

  function SweepStep(s: St, h: nat, q: Path, unit: bool): (r: St)
    requires IsUnmap(s, h) && Idle(s, q) && (Backed(s.leaf[q].d) || s.leaf[q].d.AssignedNs?)
  {
    var o := s.ops[h];
    var d := s.leaf[q].d;
    var owned := if Backed(d) then Block(d.pa, Pages(s, q)) else {};
    SetOp(WriteDesc(s, q, SetMark(Unmapped(d), Marked(h, Valid(d))), if o.flavour == FlUnprot then 1 else 0), h,
          o.(swept := o.swept[q := d], owned := o.owned + owned, unit := unit))
      .(gran := if unit then SetAll(s.gran, owned, Partial) else s.gran)
  }

  function TlbiClearStep(s: St, h: nat): (r: St)
    requires IsUnmap(s, h) && s.ops[h].sync.Complete? && OwnsSlot(s, h, s.ops[h].sync.at)
  {
    var q := s.ops[h].sync.at;
    SetOp(WriteDesc(s, q, SetMark(s.leaf[q].d, Marked(h, false)), 0), h, s.ops[h].(sync := NoSync))
  }

  function UnmarkStep(s: St, h: nat, q: Path): (r: St)
    requires OwnsSlot(s, h, q)
  {
    SetOp(WriteDesc(s, q, SetMark(s.leaf[q].d, Unmarked), -1), h, s.ops[h].(swept := s.ops[h].swept - {q}))
  }

  function UnmapStep(s: St, a: UnmapAct): (r: St)
    requires UnmapEnabled(s, a)
  {
    match a
    case Open(h, table, flavour) => SetOp(s, h, UnmapOp(table, flavour, map[], {}, false, false, NoSync))
    case Sweep(h, q, unit) => SweepStep(s, h, q, unit)
    case TlbiIssue(h, q) =>
      SetOp(s, h, s.ops[h].(sync := if s.da then Waiting(q) else Complete(q))).(tlb := Evict(s.tlb, Cpu, q))
    case SyncDone(h) =>
      var q := s.ops[h].sync.at;
      SetOp(s, h, s.ops[h].(sync := Complete(q))).(tlb := Evict(s.tlb, Smmu, q))
    case TlbiClear(h) => TlbiClearStep(s, h)
    case DrainStart(h) => SetOp(s, h, s.ops[h].(draining := true))
    case DrainPage(h, p) => PutGran(SetOp(s, h, s.ops[h].(owned := s.ops[h].owned - {p})), p, Delegated)
    case DrainPublish(h) =>
      SetOp(s, h, s.ops[h].(owned := {}, unit := false)).(gran := SetAll(s.gran, s.ops[h].owned, Delegated))
    case Unmark(h, q) => UnmarkStep(s, h, q)
    case Close(h) => DropOp(s, h)
  }

  // ---------------------------------------------------------------- the whole machine

  datatype Act = World(w: WorldAct) | Tree(t: TreeAct) | Map(m: MapAct) | Unmap(u: UnmapAct)

  predicate Enabled(s: St, a: Act) {
    match a
    case World(w) => WorldEnabled(s, w)
    case Tree(t) => TreeEnabled(s, t)
    case Map(m) => MapEnabled(s, m)
    case Unmap(u) => UnmapEnabled(s, u)
  }

  function Step(s: St, a: Act): (r: St)
    requires Enabled(s, a)
  {
    match a
    case World(w) => WorldStep(s, w)
    case Tree(t) => TreeStep(s, t)
    case Map(m) => MapStep(s, m)
    case Unmap(u) => UnmapStep(s, u)
  }
}
