/**
  * What one sweep of an unmap command does to a leaf table, slot by slot.
  */
module UnmapSweep {
  import opened Basics
  import opened Stage2
  import opened Stage2Steps
  import opened Stage2Inv
  import opened Stage2Tree
  import opened Stage2Own
  import opened Stage2Ops
  import opened Stage2Tlb
  import opened Stage2Theorems
  import opened Stage2Meaning
  import AddrList

  // How the memory behind a block is tracked, as far as the sweep finds out.
  datatype Tracking = Fine | Coarse | Unavailable

  // How the sweep leaves a slot.
  datatype Outcome = Went(backing: Maybe<nat>, prev: Maybe<nat>) | TookUnit | Halt(error: bool)

  datatype Verdict = Skip | Stop | Refuse | Take(unit: bool)

  predicate IsLive(d: Desc) {
    Backed(d) || d.AssignedNs?
  }

  // What the sweep does with slot q.  `fits` says that the slot lies wholly in the requested range,
  // `backing` is the page of the block taken before it.  Refuse stops the sweep, with an error when
  // it is the very first slot.
  function Judge(s: St, q: Path, flavour: Flavour, fits: bool, backing: Maybe<nat>, tracking: Tracking): (v: Verdict) {
    if q in s.leaf && !IsLive(s.leaf[q].d) then (if fits then Skip else Refuse)
    else if q !in s.leaf || !fits || !FlavourOf(s.leaf[q].d, flavour) then Refuse
    else if flavour == FlUnprot then Take(false)
    else if Pages(s, q) > Region(s) then Refuse
    else if backing.Some? && s.leaf[q].d.pa / Region(s) != backing.get / Region(s) then Stop
    else match tracking
         case Unavailable => Refuse
         case Fine => Take(false)
         case Coarse => if WholeRegion(s, q) then Take(true) else Refuse
  }

  // The entry the sweep leaves behind.
  function Stamped(d: Desc, h: nat): (r: Desc)
    requires IsLive(d)
  {
    SetMark(Unmapped(d), Marked(h, Valid(d)))
  }

  // Mapping takes over RIPAS and permissions, less execution for devices.  Unmapping what was mapped gives the old
  // entry back exactly when it had no content to lose: RIPAS was not RAM or DEV, and no permission was taken away.
  lemma UnmapUndoesMapIff(d: Desc, pa: nat, dev: bool)
    requires d.Unassigned? && d.mark == Unmarked
    ensures var m := MapResult(d, pa, dev);
            && Backed(m) && m.pa == pa && m.ripas == d.ripas && m.ap.perm == d.ap.perm
            && (m.AssignedDev? <==> dev) && (m.ap.exec <==> d.ap.exec && !dev)
    ensures Unmapped(MapResult(d, pa, dev)) == d <==> d.ripas != Ram && d.ripas != Dev && (dev ==> NoExec(d.ap) == d.ap)
  {
  }

  // What an unmap leaves behind has no output address and is neither RAM nor DEV; EMPTY stays EMPTY, and anything
  // else is DESTROYED until the Realm itself accepts RAM again.
  lemma UnmapForgets(d: Desc, to: Ripas)
    requires Backed(d)
    ensures var u := Unmapped(d);
            && u.Unassigned? && u.mark == Unmarked && (u.ripas == if d.ripas == Empty then Empty else Destroyed)
            && (u.ap == d.ap || (u.ap == DEFAULT_AP && Valid(d))) && (d.Assigned? && Valid(d) ==> u.ap == DEFAULT_AP)
            && (to == Ram ==> (UpdateRipas(u, to, false).Some? <==> d.ripas == Empty))
  {
  }

  // The output addresses of the live slots of table t from i up to j, in order.
  function Freed(leaf: map<Path, Leaf>, t: Path, i: nat, j: nat): (r: seq<nat>)
    requires i <= j
    decreases j - i
  {
    if i == j then []
    else
      var q := Kid(t, j - 1);
      Freed(leaf, t, i, j - 1) + if q in leaf && IsLive(leaf[q].d) then [leaf[q].d.pa] else []
  }

  predicate Among(x: Path, t: Path, i: nat, j: nat) {
    x != [] && Parent(x) == t && i <= Last(x) < j
  }

  // The slots after h swept table t from i up to j: stamped where they were live, no other touched.
  function StampedSlots(leaf: map<Path, Leaf>, h: nat, t: Path, i: nat, j: nat): (r: map<Path, Leaf>) {
    map x | x in leaf ::
      if Among(x, t, i, j) && IsLive(leaf[x].d) then Leaf(Stamped(leaf[x].d, h), false) else leaf[x]
  }

  // The slots it stamped, with the entries they held.
  function LiveSlots(leaf: map<Path, Leaf>, t: Path, i: nat, j: nat): (r: map<Path, Desc>) {
    map x | x in leaf && Among(x, t, i, j) && IsLive(leaf[x].d) :: leaf[x].d
  }

  ghost predicate AllLeaves(leaf: map<Path, Leaf>, t: Path, i: nat, j: nat) {
    forall k :: i <= k < j ==> Kid(t, k) in leaf
  }

  ghost predicate Swept(s0: St, s: St, h: nat, t: Path, i: nat, j: nat) {
    && i <= j && IsUnmap(s0, h) && IsUnmap(s, h) && AllLeaves(s0.leaf, t, i, j)
    && s.leaf == StampedSlots(s0.leaf, h, t, i, j)
    && s.ops == s0.ops[h := s0.ops[h].(swept := LiveSlots(s0.leaf, t, i, j), owned := s.ops[h].owned, unit := s.ops[h].unit)]
    && s.levels == s0.levels && s.unit == s0.unit && s.da == s0.da && s.coh == s0.coh && s.zero == s0.zero
    && s.tbl.Keys == s0.tbl.Keys
  }

  lemma AmongNext(x: Path, t: Path, i: nat, j: nat)
    requires i <= j
    ensures Among(x, t, i, j + 1) <==> Among(x, t, i, j) || x == Kid(t, j)
  {
    KidOf(t, j);
    if x != [] {
      OfParent(x);
    }
  }

  lemma SlotsAdvance(leaf: map<Path, Leaf>, h: nat, t: Path, i: nat, j: nat)
    requires i <= j && Kid(t, j) in leaf
    ensures var d := leaf[Kid(t, j)].d;
            StampedSlots(leaf, h, t, i, j + 1) ==
            if IsLive(d) then StampedSlots(leaf, h, t, i, j)[Kid(t, j) := Leaf(Stamped(d, h), false)]
            else StampedSlots(leaf, h, t, i, j)
  {
    forall x ensures Among(x, t, i, j + 1) <==> Among(x, t, i, j) || x == Kid(t, j) { AmongNext(x, t, i, j); }
    KidOf(t, j);
  }

  lemma MemoryAdvances(leaf: map<Path, Leaf>, t: Path, i: nat, j: nat)
    requires i <= j && Kid(t, j) in leaf
    ensures var d := leaf[Kid(t, j)].d;
            LiveSlots(leaf, t, i, j + 1) ==
            if IsLive(d) then LiveSlots(leaf, t, i, j)[Kid(t, j) := d] else LiveSlots(leaf, t, i, j)
  {
    forall x ensures Among(x, t, i, j + 1) <==> Among(x, t, i, j) || x == Kid(t, j) { AmongNext(x, t, i, j); }
    KidOf(t, j);
  }

  lemma SweptSkips(s0: St, s: St, h: nat, t: Path, i: nat, j: nat)
    requires Swept(s0, s, h, t, i, j) && Kid(t, j) in s0.leaf && !IsLive(s0.leaf[Kid(t, j)].d)
    ensures Swept(s0, s, h, t, i, j + 1)
    ensures Freed(s0.leaf, t, i, j + 1) == Freed(s0.leaf, t, i, j)
  {
    SlotsAdvance(s0.leaf, h, t, i, j);
    MemoryAdvances(s0.leaf, t, i, j);
  }

  // Slots the sweep has not reached are as they were.
  lemma Unreached(s0: St, s: St, h: nat, t: Path, i: nat, j: nat)
    requires Swept(s0, s, h, t, i, j)
    ensures Kid(t, j) in s.leaf <==> Kid(t, j) in s0.leaf
    ensures Kid(t, j) in s.leaf ==> s.leaf[Kid(t, j)] == s0.leaf[Kid(t, j)]
  {
    KidOf(t, j);
  }

  lemma SweptTakes(s0: St, s: St, h: nat, t: Path, i: nat, j: nat, unit: bool)
    requires Swept(s0, s, h, t, i, j) && UnmapEnabled(s, Sweep(h, Kid(t, j), unit))
    ensures Kid(t, j) in s0.leaf && IsLive(s0.leaf[Kid(t, j)].d)
    ensures Swept(s0, SweepStep(s, h, Kid(t, j), unit), h, t, i, j + 1)
    ensures Freed(s0.leaf, t, i, j + 1) == Freed(s0.leaf, t, i, j) + [s0.leaf[Kid(t, j)].d.pa]
  {
    Unreached(s0, s, h, t, i, j);
    SlotsAdvance(s0.leaf, h, t, i, j);
    MemoryAdvances(s0.leaf, t, i, j);
  }

  // ---------------------------------------------------------------- pages queued by the sweep

  // `owned` is exactly the pages of the blocks in `blocks`.
  ghost predicate Holds(owned: set<nat>, blocks: seq<nat>, n: nat) {
    forall p :: p in owned <==> exists i :: 0 <= i < |blocks| && Within(blocks[i], n, p)
  }

  lemma HoldsMore(owned: set<nat>, blocks: seq<nat>, n: nat, pa: nat)
    requires Holds(owned, blocks, n)
    ensures Holds(owned + Block(pa, n), blocks + [pa], n)
  {
    var more := blocks + [pa];
    forall p
      ensures p in owned + Block(pa, n) <==> exists i :: 0 <= i < |more| && Within(more[i], n, p)
    {
      if p in owned {
        var i :| 0 <= i < |blocks| && Within(blocks[i], n, p);
        assert more[i] == blocks[i];
      } else if p in Block(pa, n) {
        assert more[|blocks|] == pa;
      }
      if i :| 0 <= i < |more| && Within(more[i], n, p) {
        assert i < |blocks| ==> Within(blocks[i], n, p);
      }
    }
  }

  lemma HoldsFirst(owned: set<nat>, blocks: seq<nat>, n: nat)
    requires Holds(owned, blocks, n) && n > 0
    ensures blocks == [] || blocks[0] in owned
  {
    if blocks != [] {
      assert Within(blocks[0], n, blocks[0]);
    }
  }

  lemma {:induction false} SpanDivides(k: nat, u: nat) returns (m: nat)
    requires k <= u
    ensures m >= 1 && Span(u) == Span(k) * m
  {
    if k == u {
      m := 1;
    } else {
      var j := SpanDivides(k, u - 1);
      m := ENTRIES * j;
      assert ENTRIES * (Span(k) * j) == Span(k) * (ENTRIES * j);
    }
  }

  // Splits an aligned address into whole units of n * m and a remainder with room for a block of n.
  lemma SplitAligned(a: nat, n: nat, m: nat)
    requires n > 0 && m > 0
    ensures n * a == (n * m) * (a / m) + n * (a % m)
    ensures n * (a % m) + n <= n * m
  {
    var b, c := a / m, a % m;
    assert a == m * b + c;
    assert n * (m * b + c) == n * (m * b) + n * c;
    assert n * (m * b) == (n * m) * b;
    MulLe(c + 1, m, n);
    assert (c + 1) * n == n * c + n;
  }

  lemma BlockInUnit(a: nat, n: nat, m: nat, x: nat)
    requires n > 0 && m > 0 && x < n
    ensures (n * a + x) / (n * m) == a / m
  {
    SplitAligned(a, n, m);
    var d, b := n * m, a / m;
    QuotientIs(n * a + x, d, b);
  }

  // An aligned block no larger than a tracking region lies in one region.
  lemma BlockInRegion(pa: nat, k: nat, u: nat, p: nat)
    requires k <= u && pa % Span(k) == 0 && Within(pa, Span(k), p)
    ensures p / Span(u) == pa / Span(u)
  {
    var m := SpanDivides(k, u);
    DivideExact(pa, Span(k));
    BlockInUnit(pa / Span(k), Span(k), m, p - pa);
    BlockInUnit(pa / Span(k), Span(k), m, 0);
  }

  lemma DivideExact(x: nat, n: nat)
    requires n > 0 && x % n == 0
    ensures x == n * (x / n)
  {
  }

  // Every queued page lies in the region of the block queued last.
  ghost predicate OneRegion(s: St, owned: set<nat>, backing: Maybe<nat>) {
    if backing.None? then owned == {} else forall p :: p in owned ==> p / Region(s) == backing.get / Region(s)
  }

  lemma {:induction false} SpanGrows(k: nat, u: nat)
    requires u < k
    ensures Span(u) < Span(k)
  {
    if u < k - 1 {
      SpanGrows(k - 1, u);
    }
  }

  lemma RegionGrows(s: St, owned: set<nat>, backing: Maybe<nat>, q: Path, pa: nat)
    requires OneRegion(s, owned, backing) && |q| <= s.levels && pa % Pages(s, q) == 0 && Pages(s, q) <= Region(s)
    requires backing.Some? ==> pa / Region(s) == backing.get / Region(s)
    ensures OneRegion(s, owned + Block(pa, Pages(s, q)), Some(pa))
  {
    if s.unit < s.levels - |q| {
      SpanGrows(s.levels - |q|, s.unit);
    }
    forall p | p in Block(pa, Pages(s, q))
      ensures p / Region(s) == pa / Region(s)
    {
      BlockInRegion(pa, s.levels - |q|, s.unit, p);
    }
  }

  // ---------------------------------------------------------------- the sweep

  // An unmap operation that has just begun on table t.
  predicate Opened(s: St, h: nat, t: Path) {
    h in s.ops && s.ops[h].UnmapOp? && s.ops[h] == UnmapOp(t, s.ops[h].flavour, map[], {}, false, false, NoSync)
  }

  // The list is one contiguous run that ends with the block at `last`.
  ghost predicate OneRun(rs: seq<AddrList.Range>, n: nat, last: nat) {
    |rs| == 1 && rs[0].base + rs[0].cnt * n == last + n && rs[0].cnt <= ENTRIES
  }

  // The outcome of a sweep of h over slots i up to j of table t: exactly its live slots are stamped,
  // the list `rs` of blocks of n pages names exactly their output addresses, the operation owns exactly
  // the pages of these blocks, and a coarse unit, which it holds as PARTIAL, is the only block.
  ghost predicate SweepDone(s0: St, s: St, rs: seq<AddrList.Range>, n: nat, h: nat, t: Path, i: nat, j: nat, single: bool) {
    && Swept(s0, s, h, t, i, j)
    && rs == AddrList.AddAll(Freed(s0.leaf, t, i, j), n)
    && (if s.ops[h].flavour == FlUnprot then s.ops[h].owned == {}
        else Holds(s.ops[h].owned, Freed(s0.leaf, t, i, j), n))
    && (single ==> |rs| <= 1)
    && (s.ops[h].unit ==> |Freed(s0.leaf, t, i, j)| == 1)
    && s.gran == (if s.ops[h].unit then SetAll(s0.gran, s.ops[h].owned, Partial) else s0.gran)
  }

  // The list of a sweep names exactly the output addresses that were freed.
  lemma SweepLists(s0: St, s: St, rs: seq<AddrList.Range>, n: nat, h: nat, t: Path, i: nat, j: nat, single: bool)
    requires SweepDone(s0, s, rs, n, h, t, i, j, single)
    ensures multiset(AddrList.Expand(rs, n)) == multiset(Freed(s0.leaf, t, i, j))
  {
    AddrList.AddAllNames(Freed(s0.leaf, t, i, j), n);
  }

  function LastOf(f: seq<nat>): (r: Maybe<nat>) {
    if f == [] then None else Some(f[|f| - 1])
  }

  // ---------------------------------------------------------------- how far a sweep gets

  // What an unmap of a leaf table asks for: its flavour, the first slot, the end of the range in slots, whether the
  // output must be one run, the room in the output list, and how the memory behind each slot is tracked.
  datatype Request = Request(flavour: Flavour, start: nat, limit: nat, single: bool, room: nat, tracking: seq<Tracking>)

  // A live slot that cannot be unmapped whatever was unmapped before it: it has another flavour, or its memory is
  // larger than a tracking region, is not available, or is tracked as one unit of which it is only a part.
  predicate Obstacle(s: St, q: Path, flavour: Flavour, tracking: Tracking)
    requires q in s.leaf
  {
    || !FlavourOf(s.leaf[q].d, flavour)
    || (flavour != FlUnprot &&
        (Pages(s, q) > Region(s) || tracking == Unavailable || (tracking == Coarse && !WholeRegion(s, q))))
  }

  // A live slot that does not go with the blocks `f` freed before it: it lies in another region than they do, does not
  // continue the single run they make, or the list has no room for it.
  predicate Crowded(s: St, q: Path, req: Request, f: seq<nat>)
    requires q in s.leaf && IsLive(s.leaf[q].d)
  {
    var pa, n := s.leaf[q].d.pa, Pages(s, q);
    || (f != [] && req.flavour != FlUnprot && pa / Region(s) != f[|f| - 1] / Region(s))
    || (f != [] && req.single && pa != f[|f| - 1] + n)
    || !AddrList.Fits(AddrList.AddAll(f, n), req.room, n, pa)
  }

  // A sweep of table t as asked goes no further than slot k: it is past the range, a table, or cannot be unmapped.
  predicate StopsAt(s: St, t: Path, req: Request, k: nat)
    requires req.start <= k < |req.tracking|
  {
    var q := Kid(t, k);
    || k >= req.limit || q !in s.leaf
    || (IsLive(s.leaf[q].d) &&
        (Obstacle(s, q, req.flavour, req.tracking[k]) || Crowded(s, q, req, Freed(s.leaf, t, req.start, k))))
  }

  // Slot k is a live block that is tracked as one unit, which ends the sweep.
  predicate EndsAfter(s: St, t: Path, req: Request, k: nat)
    requires k < |req.tracking|
  {
    Kid(t, k) in s.leaf && IsLive(s.leaf[Kid(t, k)].d) && req.flavour != FlUnprot && req.tracking[k] == Coarse
  }

  // A sweep of table t as asked passes every slot below `end` and can go no further.
  ghost predicate Reaches(s: St, t: Path, req: Request, end: nat)
    requires |req.tracking| == ENTRIES
  {
    && req.start < end <= ENTRIES
    && (forall k :: req.start <= k < end ==> !StopsAt(s, t, req, k))
    && (forall k :: req.start <= k < end - 1 ==> !EndsAfter(s, t, req, k))
    && (end == ENTRIES || EndsAfter(s, t, req, end - 1) || StopsAt(s, t, req, end))
  }

  // There is at most one such end.
  lemma ReachesOnce(s: St, t: Path, req: Request, end: nat, end': nat)
    requires |req.tracking| == ENTRIES && Reaches(s, t, req, end) && Reaches(s, t, req, end')
    ensures end == end'
  {
    hide StopsAt, EndsAfter;
  }

  // Nothing can be unmapped exactly when the first slot is past the range or a table, or is live and an obstacle.
  lemma FirstStopsIff(s: St, t: Path, req: Request)
    requires req.start < |req.tracking| && req.room > 0
    ensures StopsAt(s, t, req, req.start) <==>
              || req.start >= req.limit || Kid(t, req.start) !in s.leaf
              || (IsLive(s.leaf[Kid(t, req.start)].d) &&
                  Obstacle(s, Kid(t, req.start), req.flavour, req.tracking[req.start]))
  {
  }

  lemma StopsSame(s: St, r: St, t: Path, req: Request, k: nat)
    requires req.start <= k < |req.tracking| && r.levels == s.levels && r.unit == s.unit && r.leaf == s.leaf
    ensures (StopsAt(s, t, req, k) <==> StopsAt(r, t, req, k)) && (EndsAfter(s, t, req, k) <==> EndsAfter(r, t, req, k))
  {
    hide Freed, AddrList.AddAll, AddrList.Fits, Span;
  }

  lemma ReachesSame(s: St, r: St, t: Path, req: Request, end: nat)
    requires |req.tracking| == ENTRIES && Reaches(r, t, req, end)
    requires r.levels == s.levels && r.unit == s.unit && r.leaf == s.leaf
    ensures Reaches(s, t, req, end)
  {
    hide StopsAt, EndsAfter;
    forall k | req.start <= k < ENTRIES
      ensures (StopsAt(s, t, req, k) <==> StopsAt(r, t, req, k)) && (EndsAfter(s, t, req, k) <==> EndsAfter(r, t, req, k))
    {
      StopsSame(s, r, t, req, k);
    }
  }

  // The request a sweep works on.
  predicate Asks(s: St, h: nat, i: nat, single: bool, room: nat, req: Request) {
    IsUnmap(s, h) && req.flavour == s.ops[h].flavour && req.start == i && req.single == single && req.room == room
  }

  // What the sweep decides at a slot, from what it remembers, is what the request means.
  lemma JudgeMeans(s0: St, s: St, rs: seq<AddrList.Range>, n: nat, h: nat, t: Path, i: nat, j: nat,
                   backing: Maybe<nat>, prev: Maybe<nat>, single: bool, req: Request)
    requires Sweeping(s0, s, rs, n, h, t, i, j, backing, prev, single) && j < ENTRIES == |req.tracking|
    requires Asks(s, h, i, single, req.room, req)
    ensures var q, v := Kid(t, j), Judge(s, Kid(t, j), req.flavour, j < req.limit, backing, req.tracking[j]);
            && (v.Skip? ==> q in s.leaf && !IsLive(s.leaf[q].d) && !StopsAt(s0, t, req, j) && !EndsAfter(s0, t, req, j))
            && (v.Stop? || v.Refuse? ==> StopsAt(s0, t, req, j))
            && (v.Take? ==>
                  && j < req.limit && q in s.leaf && IsLive(s.leaf[q].d) && (v.unit <==> EndsAfter(s0, t, req, j))
                  && (StopsAt(s0, t, req, j) <==>
                        || (single && prev.Some? && s.leaf[q].d.pa != prev.get + n)
                        || !AddrList.Fits(rs, req.room, n, s.leaf[q].d.pa)))
  {
    hide Span, AddrList.AddAll, AddrList.Fits, Freed, Holds, OneRun, OneRegion, StampedSlots, LiveSlots;
    Unreached(s0, s, h, t, i, j);
    KidOf(t, j);
  }

  // What holds while h sweeps: `prev` and `backing` tell of the block taken last.
  ghost predicate Sweeping(s0: St, s: St, rs: seq<AddrList.Range>, n: nat, h: nat, t: Path, i: nat, j: nat,
                           backing: Maybe<nat>, prev: Maybe<nat>, single: bool) {
    && SweepDone(s0, s, rs, n, h, t, i, j, single) && !s.ops[h].unit
    && Opened(s0, h, t) && Unlocked(s0, t) && t in s.tbl && |t| < s.levels && n == Span(s.levels - |t| - 1)
    && OneRegion(s, s.ops[h].owned, backing)
    && prev == LastOf(Freed(s0.leaf, t, i, j)) && backing == (if s.ops[h].flavour == FlUnprot then None else prev)
    && (single && prev.Some? ==> OneRun(rs, n, prev.get) && rs[0].cnt <= j - i)
  }

  lemma SweepingStarts(s: St, n: nat, h: nat, t: Path, i: nat, single: bool)
    requires Opened(s, h, t) && Unlocked(s, t) && t in s.tbl && |t| < s.levels && n == Span(s.levels - |t| - 1)
    ensures Sweeping(s, s, [], n, h, t, i, i, None, None, single)
  {
    assert StampedSlots(s.leaf, h, t, i, i) == s.leaf;
    assert LiveSlots(s.leaf, t, i, i) == map[];
  }

  lemma SweepingEnds(s0: St, s: St, rs: seq<AddrList.Range>, n: nat, h: nat, t: Path, i: nat, j: nat,
                     backing: Maybe<nat>, prev: Maybe<nat>, single: bool)
    requires Sweeping(s0, s, rs, n, h, t, i, j, backing, prev, single)
    ensures SweepDone(s0, s, rs, n, h, t, i, j, single)
  {
  }

  lemma SweepingSkips(s0: St, s: St, rs: seq<AddrList.Range>, n: nat, h: nat, t: Path, i: nat, j: nat,
                      backing: Maybe<nat>, prev: Maybe<nat>, single: bool)
    requires Sweeping(s0, s, rs, n, h, t, i, j, backing, prev, single)
    requires Kid(t, j) in s.leaf && !IsLive(s.leaf[Kid(t, j)].d)
    ensures Sweeping(s0, s, rs, n, h, t, i, j + 1, backing, prev, single)
  {
    Unreached(s0, s, h, t, i, j);
    SweptSkips(s0, s, h, t, i, j);
  }

  // Pages queued by taking slot q.
  lemma QueueGrows(s: St, h: nat, q: Path, unit: bool, freed: seq<nat>, backing: Maybe<nat>)
    requires UnmapEnabled(s, Sweep(h, q, unit)) && Aligned(s, q, s.leaf[q].d)
    requires s.ops[h].flavour != FlUnprot && Pages(s, q) <= Region(s)
    requires Holds(s.ops[h].owned, freed, Pages(s, q)) && OneRegion(s, s.ops[h].owned, backing)
    requires backing.Some? ==> s.leaf[q].d.pa / Region(s) == backing.get / Region(s)
    ensures var r := SweepStep(s, h, q, unit);
            && Holds(r.ops[h].owned, freed + [s.leaf[q].d.pa], Pages(s, q))
            && OneRegion(r, r.ops[h].owned, Some(s.leaf[q].d.pa))
  {
    var pa := s.leaf[q].d.pa;
    HoldsMore(s.ops[h].owned, freed, Pages(s, q), pa);
    RegionGrows(s, s.ops[h].owned, backing, q, pa);
  }

  lemma RunGrows(rs: seq<AddrList.Range>, n: nat, last: nat, pa: nat, len: nat)
    requires OneRun(rs, n, last) && pa == last + n && rs[0].cnt <= len < ENTRIES && 0 < rs[0].cnt && n > 0
    ensures AddrList.FirstJoin(rs, n, pa, 0) == 0
    ensures OneRun(AddrList.Added(rs, n, pa), n, pa) && AddrList.Added(rs, n, pa)[0].cnt <= len + 1
  {
    var r := rs[0];
    assert (r.cnt + 1) * n == r.cnt * n + n;
  }

  lemma RunStarts(n: nat, pa: nat)
    ensures AddrList.Added([], n, pa) == [AddrList.Range(pa, 1)] && OneRun(AddrList.Added([], n, pa), n, pa)
  {
  }

  // Slot j of table t, which the sweep has just decided to take.
  ghost predicate Taking(s0: St, s: St, rs: seq<AddrList.Range>, n: nat, h: nat, t: Path, i: nat, j: nat,
                         backing: Maybe<nat>, prev: Maybe<nat>, single: bool, tracking: Tracking, unit: bool) {
    && Sweeping(s0, s, rs, n, h, t, i, j, backing, prev, single) && j < ENTRIES
    && Judge(s, Kid(t, j), s.ops[h].flavour, true, backing, tracking) == Take(unit)
    && Aligned(s, Kid(t, j), s.leaf[Kid(t, j)].d)
    && (single && prev.Some? ==> s.leaf[Kid(t, j)].d.pa == prev.get + n)
    && forall k :: 0 <= k < |rs| ==> rs[k].cnt > 0
  }

  lemma TakeEnabled(s0: St, s: St, rs: seq<AddrList.Range>, n: nat, h: nat, t: Path, i: nat, j: nat,
                    backing: Maybe<nat>, prev: Maybe<nat>, single: bool, tracking: Tracking, unit: bool)
    requires Taking(s0, s, rs, n, h, t, i, j, backing, prev, single, tracking, unit)
    ensures UnmapEnabled(s, Sweep(h, Kid(t, j), unit)) && Pages(s, Kid(t, j)) == n
  {
    KidOf(t, j);
    Unreached(s0, s, h, t, i, j);
  }

  // Taking a slot extends the list by its block, and the queue by the pages of the block.
  lemma TakeExtends(s0: St, s: St, rs: seq<AddrList.Range>, n: nat, h: nat, t: Path, i: nat, j: nat,
                    backing: Maybe<nat>, prev: Maybe<nat>, single: bool, tracking: Tracking, unit: bool)
    requires Taking(s0, s, rs, n, h, t, i, j, backing, prev, single, tracking, unit)
    requires UnmapEnabled(s, Sweep(h, Kid(t, j), unit)) && Pages(s, Kid(t, j)) == n
    ensures var r, pa := SweepStep(s, h, Kid(t, j), unit), s.leaf[Kid(t, j)].d.pa;
            && Swept(s0, r, h, t, i, j + 1)
            && Freed(s0.leaf, t, i, j + 1) == Freed(s0.leaf, t, i, j) + [pa]
            && AddrList.Added(rs, n, pa) == AddrList.AddAll(Freed(s0.leaf, t, i, j + 1), n)
            && OneRegion(r, r.ops[h].owned, if s.ops[h].flavour == FlUnprot then None else Some(pa))
            && (if s.ops[h].flavour == FlUnprot then r.ops[h].owned == {}
                else Holds(r.ops[h].owned, Freed(s0.leaf, t, i, j + 1), n))
  {
    var q := Kid(t, j);
    SweptTakes(s0, s, h, t, i, j, unit);
    AddrList.AddAllNext(Freed(s0.leaf, t, i, j), s.leaf[q].d.pa, n);
    if s.ops[h].flavour != FlUnprot {
      QueueGrows(s, h, q, unit, Freed(s0.leaf, t, i, j), backing);
    }
  }

  lemma RunContinues(rs: seq<AddrList.Range>, n: nat, prev: Maybe<nat>, pa: nat, len: nat)
    requires n > 0 && len < ENTRIES
    requires if prev.None? then rs == []
             else OneRun(rs, n, prev.get) && 0 < rs[0].cnt <= len && pa == prev.get + n
    ensures OneRun(AddrList.Added(rs, n, pa), n, pa) && AddrList.Added(rs, n, pa)[0].cnt <= len + 1
  {
    if prev.Some? {
      RunGrows(rs, n, prev.get, pa, len);
    } else {
      RunStarts(n, pa);
    }
  }

  lemma SweptUpward(s0: St, s: St, h: nat, t: Path, i: nat, j: nat)
    requires Swept(s0, s, h, t, i, j)
    ensures i <= j
  {
  }

  lemma TakeShape(s: St, h: nat, q: Path)
    requires UnmapEnabled(s, Sweep(h, q, false))
    ensures q in s.leaf && (Backed(s.leaf[q].d) || s.leaf[q].d.AssignedNs?)
    ensures var r := SweepStep(s, h, q, false);
            && r.levels == s.levels && r.gran == s.gran && r.tbl.Keys == s.tbl.Keys
            && IsUnmap(s, h) && IsUnmap(r, h) && r.ops[h].flavour == s.ops[h].flavour && r.ops[h].unit == s.ops[h].unit
  {
    hide Region, WholeRegion, InRegion, Aligned;
  }

  lemma SweepingTakes(s0: St, s: St, rs: seq<AddrList.Range>, n: nat, h: nat, t: Path, i: nat, j: nat,
                      backing: Maybe<nat>, prev: Maybe<nat>, single: bool, tracking: Tracking)
    requires Taking(s0, s, rs, n, h, t, i, j, backing, prev, single, tracking, false)
    requires UnmapEnabled(s, Sweep(h, Kid(t, j), false)) && Pages(s, Kid(t, j)) == n
    ensures var r, pa := SweepStep(s, h, Kid(t, j), false), s.leaf[Kid(t, j)].d.pa;
            Sweeping(s0, r, AddrList.Added(rs, n, pa), n, h, t, i, j + 1,
                     if s.ops[h].flavour == FlUnprot then None else Some(pa), Some(pa), single)
  {
    hide Region, WholeRegion, InRegion, Aligned, OneRun, Freed, Swept, Judge, Holds, OneRegion, UnmapEnabled, SweepStep;
    SweptUpward(s0, s, h, t, i, j);
    TakeShape(s, h, Kid(t, j));
    TakeExtends(s0, s, rs, n, h, t, i, j, backing, prev, single, tracking, false);
    if single {
      RunContinues(rs, n, prev, s.leaf[Kid(t, j)].d.pa, j - i);
    }
  }

  // A coarse unit is the first and only block of its sweep.
  lemma UnitTaken(s0: St, s: St, rs: seq<AddrList.Range>, n: nat, h: nat, t: Path, i: nat, j: nat,
                  backing: Maybe<nat>, prev: Maybe<nat>, single: bool, tracking: Tracking)
    requires Taking(s0, s, rs, n, h, t, i, j, backing, prev, single, tracking, true)
    requires UnmapEnabled(s, Sweep(h, Kid(t, j), true)) && Pages(s, Kid(t, j)) == n && SoleInv(s)
    ensures SweepDone(s0, SweepStep(s, h, Kid(t, j), true), AddrList.Added(rs, n, s.leaf[Kid(t, j)].d.pa), n,
                      h, t, i, j + 1, single)
  {
    hide Region, WholeRegion, InRegion, OneRegion, Aligned, OneRun;
    UnitIsAlone(s, h, Kid(t, j));
    HoldsFirst(s.ops[h].owned, Freed(s0.leaf, t, i, j), n);
    assert prev.None?;
    TakeExtends(s0, s, rs, n, h, t, i, j, backing, prev, single, tracking, true);
    assert {} + Block(s.leaf[Kid(t, j)].d.pa, n) == Block(s.leaf[Kid(t, j)].d.pa, n);
    RunStarts(n, s.leaf[Kid(t, j)].d.pa);
  }
}
