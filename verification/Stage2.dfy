/**
  * The stage 2 table engine of one Realm as a state machine.
  *
  * A table is named by the path of indices that leads to it from the root, and a slot by the
  * path of its table followed by its own index, so a slot at path q maps Pages(s, q) pages.
  * Every step of the machine is one indivisible action of one agent: a processing element
  * running RMM code, the hardware table walkers (CPU and SMMU), the Realm, or the rest of the
  * system.  RMM commands are sequences of such actions, so whatever holds after every action
  * also holds at every point inside every interleaving of commands and continuations.
  */
module Stage2 {
  // S2TTES_PER_S2TT
  const ENTRIES: nat := 512

  // Levels below the root at which blocks may be mapped: pages, level 2 and level 1 blocks.
  const BLOCK_HEIGHT: nat := 2

  type Path = seq<nat>

  function Kid(t: Path, i: nat): (q: Path) {
    t + [i]
  }

  function Parent(q: Path): (t: Path)
    requires q != []
  {
    q[..|q| - 1]
  }

  function Last(q: Path): (i: nat)
    requires q != []
  {
    q[|q| - 1]
  }

  // The number of pages below an entry that has k levels of tables under it.
  function Span(k: nat): (n: nat)
    ensures n >= 1
  {
    if k == 0 then 1 else ENTRIES * Span(k - 1)
  }

  datatype Ripas = Empty | Ram | Destroyed | Dev

  datatype Ap = Ap(perm: nat, exec: bool)

  // The drain marker of an unassigned entry: the handle of the stateful operation that owns the
  // slot, and whether translations of the old entry may still be cached.
  datatype Mark = Unmarked | Marked(handle: nat, tlbi: bool)

  datatype Desc =
    | Unassigned(ripas: Ripas, ap: Ap, mark: Mark)
    | UnassignedNs(mark: Mark)
    | Assigned(ripas: Ripas, pa: nat, ap: Ap)
    | AssignedDev(ripas: Ripas, pa: nat, ap: Ap, attr: nat)
    | AssignedNs(pa: nat, attr: nat)
    | Broken(fix: Fix)

  // What the processing element that wrote an all-zero descriptor is going to write next.
  datatype Fix =
    | Unfold(was: Desc)
    | Refold(next: Desc, table: nat)

  // `owes` holds between the write of a slot and the invalidation that the writer performs
  // before it drops the table lock.
  datatype Leaf = Leaf(d: Desc, owes: bool)

  datatype Table = Table(addr: nat, rc: int)

  datatype Granule = NonSecure | Delegated | Data | Mapped | Rtt | Partial | Other

  datatype Agent = Cpu | Smmu

  // A cached translation: the slot it was read from and the descriptor that was read.
  datatype Cached = Cached(agent: Agent, slot: Path, d: Desc)

  datatype Flavour = FlData | FlDev | FlUnprot

  datatype Sync = NoSync | Waiting(at: Path) | Complete(at: Path)

  datatype Op =
    // A map operation owns slot `slot` and the first `off` pages of the block at `pa`, or the
    // whole block (its first `off` pages zeroed) when the block is tracked coarsely.
    | MapOp(slot: Path, pa: nat, dev: bool, coh: nat, off: nat, coarse: bool, rollback: bool)
    // An unmap operation owns the slots in `swept`, remembered with the entries they held, and
    // the pages in `owned` that it has not yet given back; `unit` when these are one coarse unit.
    | UnmapOp(table: Path, flavour: Flavour, swept: map<Path, Desc>, owned: set<nat>,
              draining: bool, unit: bool, sync: Sync)

  // `unit` gives the size of a tracking region as a number of levels, `da` says whether the Realm has
  // devices whose SMMU walks the same tables, `zero` holds the pages that contain only zeros.
  datatype St = St(levels: nat, unit: nat, da: bool,
                   leaf: map<Path, Leaf>, tbl: map<Path, Table>,
                   gran: map<nat, Granule>, coh: map<nat, nat>, zero: set<nat>,
                   ops: map<nat, Op>, tlb: set<Cached>)

  // ---------------------------------------------------------------- descriptors

  predicate HasMark(d: Desc) {
    (d.Unassigned? || d.UnassignedNs?) && d.mark.Marked?
  }

  predicate MarkedBy(d: Desc, h: nat) {
    HasMark(d) && d.mark.handle == h
  }

  // Entries that own protected granules.
  predicate Backed(d: Desc) {
    d.Assigned? || d.AssignedDev?
  }

  // Entries the hardware may translate through.
  predicate Valid(d: Desc) {
    (d.Assigned? && d.ripas == Ram) || (d.AssignedDev? && d.ripas == Dev) || d.AssignedNs?
  }

  predicate Settled(d: Desc) {
    !d.Broken? && !HasMark(d)
  }

  // The entry a slot stands for, looking through a break in progress.
  function Body(d: Desc): (b: Desc) {
    if d.Broken? then (match d.fix case Unfold(was) => was case Refold(next, _) => next) else d
  }

  predicate CountsDesc(d: Desc) {
    Backed(Body(d)) || HasMark(Body(d))
  }

  function NoExec(ap: Ap): (r: Ap) {
    ap.(exec := false)
  }

  // Entry i of the table that replaces block d, whose entries map n pages each.
  function Piece(d: Desc, i: nat, n: nat): (r: Desc) {
    if d.Assigned? || d.AssignedDev? || d.AssignedNs? then d.(pa := d.pa + i * n) else d
  }

  // ---------------------------------------------------------------- the tree

  function Pages(s: St, q: Path): (n: nat)
    ensures n >= 1
  {
    if |q| <= s.levels then Span(s.levels - |q|) else 1
  }

  // The number of pages in a tracking region.
  function Region(s: St): (n: nat)
    ensures n >= 1
  {
    Span(s.unit)
  }

  // Whether slot q holds a reference on its table.
  predicate Counts(leaf: map<Path, Leaf>, tbl: map<Path, Table>, q: Path) {
    q in tbl || (q in leaf && CountsDesc(leaf[q].d))
  }

  function Weight(b: bool): (w: nat) {
    if b then 1 else 0
  }

  // How many of the first n slots of table t hold a reference on it.
  function CountUpTo(leaf: map<Path, Leaf>, tbl: map<Path, Table>, t: Path, n: nat): (c: nat)
    ensures c <= n
  {
    if n == 0 then 0 else CountUpTo(leaf, tbl, t, n - 1) + Weight(Counts(leaf, tbl, Kid(t, n - 1)))
  }

  // Writes slot q and moves the reference count of its table by `rc`.
  function WriteLeaf(s: St, q: Path, l: Leaf, rc: int): (r: St)
    requires q != [] && q in s.leaf && Parent(q) in s.tbl
  {
    var t := Parent(q);
    s.(leaf := s.leaf[q := l], tbl := s.tbl[t := s.tbl[t].(rc := s.tbl[t].rc + rc)])
  }

  function WriteDesc(s: St, q: Path, d: Desc, rc: int): (r: St)
    requires q != [] && q in s.leaf && Parent(q) in s.tbl
  {
    WriteLeaf(s, q, Leaf(d, false), rc)
  }

  predicate Below(q: Path, r: Path) {
    |q| <= |r| && r[..|q|] == q
  }

  function Flush(s: St, q: Path): (r: St) {
    s.(tlb := set c | c in s.tlb && !Below(q, c.slot))
  }

  function Evict(tlb: set<Cached>, a: Agent, q: Path): (r: set<Cached>) {
    set c | c in tlb && !(c.agent == a && c.slot == q)
  }

  function SetRange(g: map<nat, Granule>, lo: nat, n: nat, to: Granule): (r: map<nat, Granule>) {
    map p | p in g :: if lo <= p < lo + n then to else g[p]
  }

  predicate RangeIs(g: map<nat, Granule>, lo: nat, n: nat, st: Granule) {
    forall p :: lo <= p < lo + n ==> p in g && g[p] == st
  }

  predicate Within(lo: nat, n: nat, p: nat) {
    lo <= p < lo + n
  }

  function Block(lo: nat, n: nat): (r: set<nat>) {
    set p: nat | lo <= p < lo + n && Within(lo, n, p)
  }

  function SetAll(g: map<nat, Granule>, ps: set<nat>, to: Granule): (r: map<nat, Granule>) {
    map p | p in g :: if p in ps then to else g[p]
  }

  function KidsOf(q: Path): (r: set<Path>) {
    set i | 0 <= i < ENTRIES :: Kid(q, i)
  }

  // The slots of the table created over slot q: 512 pieces of the entry d.
  function Spread(levels: nat, q: Path, d: Desc): (r: map<Path, Leaf>)
    requires |q| < levels
  {
    map k | k in KidsOf(q) :: Leaf(Piece(d, Last(k), Span(levels - |q| - 1)), false)
  }

  // Replaces the leaf at q, which stands for entry d, by a table at granule addr.  The new table
  // holds one reference per owned granule; its parent gains one unless d already held it.
  function PlantTable(s: St, q: Path, addr: nat, d: Desc): (r: St)
    requires q != [] && q in s.leaf && Parent(q) in s.tbl && |q| < s.levels
  {
    var t := Parent(q);
    var up := if Backed(d) then 0 else 1;
    s.(leaf := (s.leaf - {q}) + Spread(s.levels, q, d),
       tbl := s.tbl[t := s.tbl[t].(rc := s.tbl[t].rc + up)][q := Table(addr, if Backed(d) then ENTRIES else 0)],
       gran := s.gran[addr := Rtt])
  }

  // Replaces the table at q by a break leading to `next`.  The reference of the parent is dropped
  // when the table itself held none, and is otherwise taken over by the block.
  function CutTable(s: St, q: Path, next: Desc): (r: St)
    requires q != [] && q in s.tbl && Parent(q) in s.tbl
  {
    var t := Parent(q);
    var down := if s.tbl[q].rc == 0 then 1 else 0;
    s.(leaf := (s.leaf - KidsOf(q))[q := Leaf(Broken(Refold(next, s.tbl[q].addr)), true)],
       tbl := (s.tbl - {q})[t := s.tbl[t].(rc := s.tbl[t].rc - down)])
  }

  // Every slot of table t is the matching piece of `next`, unlocked and unmarked: what fold tests.
  predicate FoldsTo(s: St, t: Path, next: Desc) {
    && |t| < s.levels
    && Settled(next)
    && (next.Assigned? || next.AssignedDev? || next.AssignedNs? ==>
          s.levels - |t| <= BLOCK_HEIGHT && next.pa % Pages(s, t) == 0)
    && forall i :: 0 <= i < ENTRIES ==>
         Kid(t, i) in s.leaf && s.leaf[Kid(t, i)] == Leaf(Piece(next, i, Span(s.levels - |t| - 1)), false)
  }

  // No command is in the middle of changing a slot of table t: its lock is free.
  predicate Unlocked(s: St, t: Path) {
    forall i :: 0 <= i < ENTRIES && Kid(t, i) in s.leaf ==>
      !s.leaf[Kid(t, i)].owes && !s.leaf[Kid(t, i)].d.Broken?
  }

  // ---------------------------------------------------------------- entry transitions

  datatype Maybe<T> = None | Some(get: T)

  // The entry written when RIPAS is set to EMPTY or RAM; None when the command refuses the entry.
  function UpdateRipas(d: Desc, to: Ripas, destroyedToo: bool): (r: Maybe<Desc>) {
    if to == Empty then
      match d
      case Unassigned(_, ap, m) => if m.Marked? then None else Some(Unassigned(Empty, ap, m))
      case Assigned(_, pa, ap) => Some(Assigned(Empty, pa, ap))
      case AssignedDev(r, pa, ap, _) => Some(if r == Empty then d else AssignedDev(Empty, pa, ap, 0))
      case _ => None
    else if to == Ram then
      match d
      case Unassigned(r, ap, m) =>
        if m.Marked? || (r == Destroyed && !destroyedToo) then None else Some(Unassigned(Ram, ap, m))
      case Assigned(r, pa, ap) => if r == Destroyed && !destroyedToo then None else Some(Assigned(Ram, pa, ap))
      case _ => None
    else None
  }

  // The old entry as the sweep of an unmap rewrites it, before it is stamped.
  function Unmapped(d: Desc): (r: Desc)
    requires Backed(d) || d.AssignedNs?
  {
    if d.AssignedNs? then UnassignedNs(Unmarked)
    else if d.ripas == Empty then Unassigned(Empty, d.ap, Unmarked)
    else Unassigned(Destroyed, if d.Assigned? && d.ripas == Ram then DEFAULT_AP else d.ap, Unmarked)
  }

  const DEFAULT_AP: Ap := Ap(0, true)

  predicate FlavourOf(d: Desc, f: Flavour) {
    match f
    case FlData => d.Assigned?
    case FlDev => d.AssignedDev?
    case FlUnprot => d.AssignedNs?
  }

  function SetMark(d: Desc, m: Mark): (r: Desc)
    requires d.Unassigned? || d.UnassignedNs?
  {
    d.(mark := m)
  }

  // The entry that completes a map operation.
  function MapResult(d: Desc, pa: nat, dev: bool): (r: Desc)
    requires d.Unassigned?
  {
    if dev then AssignedDev(d.ripas, pa, NoExec(d.ap), 0) else Assigned(d.ripas, pa, d.ap)
  }

  // ---------------------------------------------------------------- shared guards and updates

  predicate Free(g: Granule) {
    g == NonSecure || g == Delegated || g == Other
  }

  predicate Slot(s: St, q: Path) {
    q != [] && q in s.leaf && Parent(q) in s.tbl && |q| <= s.levels
  }

  // A slot no command is in the middle of changing.
  predicate Idle(s: St, q: Path) {
    Slot(s, q) && !s.leaf[q].owes && Settled(s.leaf[q].d)
  }

  predicate Is(s: St, p: nat, g: Granule) {
    p in s.gran && s.gran[p] == g
  }

  function Coh(s: St, p: nat): (r: nat) {
    if p in s.coh then s.coh[p] else 0
  }

  predicate OneType(s: St, lo: nat, n: nat, ty: nat) {
    forall p :: lo <= p < lo + n ==> Coh(s, p) == ty
  }

  function SetOp(s: St, h: nat, o: Op): (r: St) {
    s.(ops := s.ops[h := o])
  }

  function DropOp(s: St, h: nat): (r: St) {
    s.(ops := s.ops - {h})
  }

  function PutGran(s: St, p: nat, g: Granule): (r: St) {
    s.(gran := s.gran[p := g])
  }
}
