/**
  * How an unmap operation lets go of its slots.
  */
module UnmapClear {
  import opened Stage2
  import opened Stage2Steps
  import opened Stage2Inv
  import opened Stage2Tree
  import opened Stage2Ops
  import opened Stage2Theorems
  import opened Stage2Meaning
  import opened UnmapSweep
  import opened UnmapInvalidate
  import opened UnmapDrain
  import AddrList

  // The slots with the markers of h removed from slots 0 up to i of table t.
  function Unstamped(leaf: map<Path, Leaf>, h: nat, t: Path, i: nat): (r: map<Path, Leaf>) {
    map x | x in leaf ::
      if Among(x, t, 0, i) && MarkedBy(leaf[x].d, h) then Leaf(SetMark(leaf[x].d, Unmarked), false) else leaf[x]
  }

  function Unswept(swept: map<Path, Desc>, t: Path, i: nat): (r: map<Path, Desc>) {
    map x | x in swept && !Among(x, t, 0, i) :: swept[x]
  }

  // The state when h has cleared its markers from slots 0 up to i: one reference dropped for each.
  ghost predicate Clearing(s0: St, s: St, h: nat, i: nat) {
    && IsUnmap(s0, h) && IsUnmap(s, h)
    && var t, swept := s0.ops[h].table, s0.ops[h].swept;
    && s == s0.(leaf := s.leaf, tbl := s.tbl, ops := s.ops)
    && s.leaf == Unstamped(s0.leaf, h, t, i)
    && s.ops == s0.ops[h := s0.ops[h].(swept := Unswept(swept, t, i))]
    && s.tbl == Dropped(s0.tbl, t, |swept| - |Unswept(swept, t, i)|)
  }

  function Dropped(tbl: map<Path, Table>, t: Path, n: int): (r: map<Path, Table>) {
    if t in tbl then tbl[t := tbl[t].(rc := tbl[t].rc - n)] else tbl
  }

  lemma ClearingStarts(s: St, h: nat)
    requires IsUnmap(s, h)
    ensures Clearing(s, s, h, 0)
  {
    assert Unstamped(s.leaf, h, s.ops[h].table, 0) == s.leaf;
    assert Unswept(s.ops[h].swept, s.ops[h].table, 0) == s.ops[h].swept;
  }

  lemma UnsweptNext(swept: map<Path, Desc>, t: Path, i: nat)
    ensures Unswept(swept, t, i + 1) == Unswept(swept, t, i) - {Kid(t, i)}
    ensures Kid(t, i) in swept ==> |Unswept(swept, t, i + 1)| == |Unswept(swept, t, i)| - 1
    ensures Kid(t, i) !in swept ==> Unswept(swept, t, i + 1) == Unswept(swept, t, i)
  {
    KidOf(t, i);
    forall x ensures Among(x, t, 0, i + 1) <==> Among(x, t, 0, i) || x == Kid(t, i) { AmongNext(x, t, 0, i); }
    var u := Unswept(swept, t, i);
    assert Unswept(swept, t, i + 1) == u - {Kid(t, i)};
    if Kid(t, i) in swept {
      assert u == (u - {Kid(t, i)})[Kid(t, i) := u[Kid(t, i)]];
    }
  }

  lemma UnstampedNext(leaf: map<Path, Leaf>, h: nat, t: Path, i: nat)
    ensures var q := Kid(t, i);
            Unstamped(leaf, h, t, i + 1) ==
            if q in leaf && MarkedBy(leaf[q].d, h) then Unstamped(leaf, h, t, i)[q := Leaf(SetMark(leaf[q].d, Unmarked), false)]
            else Unstamped(leaf, h, t, i)
  {
    KidOf(t, i);
    forall x ensures Among(x, t, 0, i + 1) <==> Among(x, t, 0, i) || x == Kid(t, i) { AmongNext(x, t, 0, i); }
  }

  // Slots not yet reached are as they were.
  lemma Untouched(s0: St, s: St, h: nat, i: nat)
    requires Clearing(s0, s, h, i)
    ensures var q := Kid(s0.ops[h].table, i);
            (q in s.leaf <==> q in s0.leaf) && (q in s.leaf ==> s.leaf[q] == s0.leaf[q])
            && (q in s.ops[h].swept <==> q in s0.ops[h].swept)
  {
    KidOf(s0.ops[h].table, i);
  }

  lemma ClearingClears(s0: St, s: St, h: nat, i: nat)
    requires Clearing(s0, s, h, i) && UnmapEnabled(s, Unmark(h, Kid(s0.ops[h].table, i)))
    ensures Clearing(s0, UnmarkStep(s, h, Kid(s0.ops[h].table, i)), h, i + 1)
  {
    hide Among, Unstamped, Unswept;
    var t := s0.ops[h].table;
    KidOf(t, i);
    Untouched(s0, s, h, i);
    UnsweptNext(s0.ops[h].swept, t, i);
    UnstampedNext(s0.leaf, h, t, i);
  }

  lemma ClearingSkips(s0: St, s: St, h: nat, i: nat)
    requires Clearing(s0, s, h, i)
    requires var q := Kid(s0.ops[h].table, i); !(q in s.leaf && MarkedBy(s.leaf[q].d, h)) && q !in s.ops[h].swept
    ensures Clearing(s0, s, h, i + 1)
  {
    Untouched(s0, s, h, i);
    UnsweptNext(s0.ops[h].swept, s0.ops[h].table, i);
    UnstampedNext(s0.leaf, h, s0.ops[h].table, i);
  }

  // The slots an unmap operation remembers are those that carry its marker.
  lemma SweptIsMarked(s: St, h: nat, q: Path)
    requires Inv(s) && IsUnmap(s, h)
    ensures q in s.ops[h].swept <==> q in s.leaf && MarkedBy(s.leaf[q].d, h)
    ensures q in s.ops[h].swept ==> OwnsSlot(s, h, q)
  {
    assert OpOk(s, h);
    if q in s.ops[h].swept {
      assert SweptOk(s, h, q);
    } else if q in s.leaf && MarkedBy(s.leaf[q].d, h) {
      MapMark(s, h, q);
    }
  }

  // After the whole table h owns no slot, every slot it stamped is plain again, and its table has
  // lost one reference for each.
  lemma ClearingEnds(s0: St, s: St, h: nat)
    requires Inv(s0) && Clearing(s0, s, h, ENTRIES)
    ensures s.ops[h].swept == map[]
    ensures s.tbl == Dropped(s0.tbl, s0.ops[h].table, |s0.ops[h].swept|)
    ensures forall x :: x in s0.leaf ==>
              s.leaf[x] == if MarkedBy(s0.leaf[x].d, h) then Leaf(SetMark(s0.leaf[x].d, Unmarked), false) else s0.leaf[x]
  {
    assert OpOk(s0, h);
    forall x | x in s0.ops[h].swept
      ensures Among(x, s0.ops[h].table, 0, ENTRIES)
    {
      assert SweptOk(s0, h, x);
    }
    assert Unswept(s0.ops[h].swept, s0.ops[h].table, ENTRIES) == map[];
    forall x | x in s0.leaf && MarkedBy(s0.leaf[x].d, h)
      ensures x in s0.ops[h].swept
    {
      MapMark(s0, h, x);
    }
  }

  // ---------------------------------------------------------------- the deferred work as a whole

  // From any point of an unmap operation to its end: every page it owned is DELEGATED, every slot that
  // carried its marker is plain, its table has lost one reference for each, and nothing else changed
  // but what is cached.
  ghost predicate Released(s0: St, s: St, h: nat) {
    && IsUnmap(s0, h) && IsUnmap(s, h)
    && s == s0.(leaf := s.leaf, tbl := s.tbl, gran := s.gran, ops := s.ops, tlb := s.tlb)
    && s.gran == SetAll(s0.gran, s0.ops[h].owned, Delegated)
    && s.tbl == Dropped(s0.tbl, s0.ops[h].table, |s0.ops[h].swept|)
    && s.ops == s0.ops[h := s.ops[h]]
    && s.leaf.Keys == s0.leaf.Keys
    && forall x :: x in s0.leaf ==>
         s.leaf[x] == if MarkedBy(s0.leaf[x].d, h) then Leaf(SetMark(s0.leaf[x].d, Unmarked), false) else s0.leaf[x]
  }

  lemma ReleasedSlot(s0: St, s1: St, s2: St, s: St, h: nat, x: Path)
    requires Inv(s2) && Quieted(s0, s1, h) && s2.leaf == s1.leaf && Clearing(s2, s, h, ENTRIES) && x in s0.leaf
    ensures x in s.leaf
    ensures s.leaf[x] == if MarkedBy(s0.leaf[x].d, h) then Leaf(SetMark(s0.leaf[x].d, Unmarked), false) else s0.leaf[x]
  {
    ClearingEnds(s2, s, h);
    assert x in s1.leaf;
  }

  lemma ReleasedBy(s0: St, s1: St, s2: St, s: St, h: nat)
    requires Inv(s2) && Quieted(s0, s1, h) && Returned(s1, s2, h) && s2.ops[h].owned == {}
    requires Clearing(s2, s, h, ENTRIES)
    ensures Released(s0, s, h)
  {
    hide Inv;
    assert s2.leaf == s1.leaf;
    forall x | x in s0.leaf
      ensures x in s.leaf
      ensures s.leaf[x] == if MarkedBy(s0.leaf[x].d, h) then Leaf(SetMark(s0.leaf[x].d, Unmarked), false) else s0.leaf[x]
    {
      ReleasedSlot(s0, s1, s2, s, h, x);
    }
    ClearingEnds(s2, s, h);
    assert s1.ops[h].owned - {} == s0.ops[h].owned;
  }

  // ---------------------------------------------------------------- a whole unmap

  // Slots i up to j of table t are unmapped: every live one is as Unmapped leaves it, no other slot has
  // changed, and the pages of the freed blocks (of n pages) are DELEGATED.
  ghost predicate UnmappedRange(s0: St, s: St, flavour: Flavour, t: Path, i: nat, j: nat, n: nat) {
    && i <= j && s.leaf.Keys == s0.leaf.Keys && s.ops == s0.ops && AllLeaves(s0.leaf, t, i, j)
    && (forall x :: x in s0.leaf ==>
          s.leaf[x] == if Among(x, t, i, j) && IsLive(s0.leaf[x].d) then Leaf(Unmapped(s0.leaf[x].d), false) else s0.leaf[x])
    && (if flavour == FlUnprot then s.gran == s0.gran else GivenBack(s0.gran, s.gran, Freed(s0.leaf, t, i, j), n))
  }

  // Every page of the blocks is DELEGATED, every other page is as it was.
  ghost predicate GivenBack(g0: map<nat, Granule>, g: map<nat, Granule>, blocks: seq<nat>, n: nat) {
    && g.Keys == g0.Keys
    && forall p :: p in g ==> g[p] == if exists i :: 0 <= i < |blocks| && Within(blocks[i], n, p) then Delegated else g0[p]
  }

  lemma HeldGivenBack(g0: map<nat, Granule>, owned: set<nat>, blocks: seq<nat>, n: nat)
    requires Holds(owned, blocks, n)
    ensures GivenBack(g0, SetAll(g0, owned, Delegated), blocks, n)
  {
  }

  // No slot outside the sweep carries a marker of an operation that has just begun.
  lemma FreshUnmarked(s: St, h: nat, x: Path)
    requires Inv(s) && IsUnmap(s, h) && s.ops[h].swept == map[] && x in s.leaf
    ensures !MarkedBy(s.leaf[x].d, h)
  {
    SweptIsMarked(s, h, x);
  }

  lemma StampedThenCleared(s0: St, s1: St, s: St, h: nat, t: Path, i: nat, j: nat, x: Path)
    requires Inv(s0) && Swept(s0, s1, h, t, i, j) && Released(s1, s, h) && s0.ops[h].swept == map[] && x in s0.leaf
    ensures x in s.leaf
    ensures s.leaf[x] == if Among(x, t, i, j) && IsLive(s0.leaf[x].d) then Leaf(Unmapped(s0.leaf[x].d), false) else s0.leaf[x]
  {
    hide Inv, LiveSlots, AllLeaves;
    FreshUnmarked(s0, h, x);
    assert x in s1.leaf;
  }

  lemma SweepReleasedPages(s0: St, s1: St, s: St, rs: seq<AddrList.Range>, n: nat, h: nat, t: Path, i: nat, j: nat, single: bool)
    requires SweepDone(s0, s1, rs, n, h, t, i, j, single) && Released(s1, s, h)
    ensures if s0.ops[h].flavour == FlUnprot then s.gran == s0.gran else GivenBack(s0.gran, s.gran, Freed(s0.leaf, t, i, j), n)
  {
    hide Freed, Among, LiveSlots, StampedSlots;
    var owned := s1.ops[h].owned;
    assert SetAll(SetAll(s0.gran, owned, Partial), owned, Delegated) == SetAll(s0.gran, owned, Delegated);
    if s0.ops[h].flavour == FlUnprot {
      assert SetAll(s0.gran, {}, Delegated) == s0.gran;
    } else {
      HeldGivenBack(s0.gran, owned, Freed(s0.leaf, t, i, j), n);
    }
  }

  // A sweep followed by its deferred work unmaps the range.
  lemma SweepReleased(s0: St, s1: St, s: St, rs: seq<AddrList.Range>, n: nat, h: nat, t: Path, i: nat, j: nat, single: bool)
    requires Inv(s0) && SweepDone(s0, s1, rs, n, h, t, i, j, single) && Opened(s0, h, t) && Released(s1, s, h)
    ensures UnmappedRange(DropOp(s0, h), DropOp(s, h), s0.ops[h].flavour, t, i, j, n)
  {
    hide Inv, Freed, Among, LiveSlots, GivenBack, Holds, SetAll;
    forall x | x in s0.leaf
      ensures x in s.leaf
      ensures s.leaf[x] == if Among(x, t, i, j) && IsLive(s0.leaf[x].d) then Leaf(Unmapped(s0.leaf[x].d), false) else s0.leaf[x]
    {
      StampedThenCleared(s0, s1, s, h, t, i, j, x);
    }
    assert (s.ops - {h}) == (s0.ops - {h});
    SweepReleasedPages(s0, s1, s, rs, n, h, t, i, j, single);
  }

  // The operation is over: its pages are DELEGATED, its slots plain, its references dropped, and it is
  // forgotten.
  ghost predicate Finished(s0: St, s: St, h: nat) {
    && IsUnmap(s0, h) && s.ops == s0.ops - {h}
    && s.gran == SetAll(s0.gran, s0.ops[h].owned, Delegated)
    && s.tbl == Dropped(s0.tbl, s0.ops[h].table, |s0.ops[h].swept|)
    && s.leaf.Keys == s0.leaf.Keys
    && forall x :: x in s0.leaf ==>
         s.leaf[x] == if MarkedBy(s0.leaf[x].d, h) then Leaf(SetMark(s0.leaf[x].d, Unmarked), false) else s0.leaf[x]
  }

  lemma ReleasedFinishes(s0: St, s: St, h: nat)
    requires Released(s0, s, h)
    ensures Finished(s0, DropOp(s, h), h)
  {
    assert s.ops - {h} == s0.ops - {h};
  }

  // ---------------------------------------------------------------- what keeps the table alive

  // A stamped slot lies in the table of its operation and counts there.
  lemma StampedSlotCounts(s: St, h: nat, q: Path)
    requires Inv(s) && IsUnmap(s, h) && q in s.ops[h].swept
    ensures q != [] && q == Kid(s.ops[h].table, Last(q)) && Last(q) < ENTRIES && q in s.leaf && MarkedBy(s.leaf[q].d, h)
    ensures s.ops[h].table in s.tbl && s.tbl[s.ops[h].table].rc != 0
  {
    SweptIsMarked(s, h, q);
    assert OpOk(s, h) && SweptOk(s, h, q);
    OfParent(q);
    CountExtremes(s.leaf, s.tbl, Parent(q), ENTRIES, Last(q));
  }

  // A table with a marked slot cannot be folded.
  lemma MarkBlocksFold(s: St, t: Path, i: nat, h: nat, next: Desc)
    requires i < ENTRIES && Kid(t, i) in s.leaf && MarkedBy(s.leaf[Kid(t, i)].d, h)
    ensures !FoldsTo(s, t, next)
  {
  }

  // An operation that stamped a slot pins its table: it exists, and can be neither folded nor destroyed.
  lemma StampedTablePinned(s: St, h: nat, next: Desc, protected: bool)
    requires Inv(s) && IsUnmap(s, h) && s.ops[h].swept != map[]
    ensures s.ops[h].table in s.tbl
    ensures !TreeEnabled(s, FoldBreak(s.ops[h].table, next)) && !TreeEnabled(s, DestroyBreak(s.ops[h].table, protected))
  {
    hide Inv, FoldsTo, Unlocked;
    var q :| q in s.ops[h].swept;
    StampedSlotCounts(s, h, q);
    MarkBlocksFold(s, s.ops[h].table, Last(q), h, next);
  }

  lemma TableHasParent(s: St, t: Path)
    requires Inv(s) && t in s.tbl && t != []
    ensures Parent(t) in s.tbl
  {
  }

  lemma DestroyableIff(s: St, t: Path, protected: bool)
    requires t in s.tbl && t != [] && Parent(t) in s.tbl && Unlocked(s, t)
    ensures TreeEnabled(s, DestroyBreak(t, protected)) <==> s.tbl[t].rc == 0
    ensures s.tbl[t].rc == 0 ==>
              var r := TreeStep(s, DestroyBreak(t, protected)); r.ops == s.ops && t !in r.tbl
  {
    hide Unlocked;
  }

  // The table of an unfinished operation that nobody else works on can be destroyed exactly when it holds no
  // references, which is possible only if the operation stamped nothing.  The operation is then left without a table.
  lemma EmptySweepNotPinned(s: St, h: nat, protected: bool)
    requires Inv(s) && IsUnmap(s, h) && s.ops[h].table in s.tbl && s.ops[h].table != [] && Unlocked(s, s.ops[h].table)
    ensures TreeEnabled(s, DestroyBreak(s.ops[h].table, protected)) <==> s.tbl[s.ops[h].table].rc == 0
    ensures s.tbl[s.ops[h].table].rc == 0 ==>
              && s.ops[h].swept == map[]
              && var r := TreeStep(s, DestroyBreak(s.ops[h].table, protected));
              IsUnmap(r, h) && r.ops[h].table !in r.tbl
  {
    hide Inv, Unlocked, TreeEnabled, TreeStep;
    TableHasParent(s, s.ops[h].table);
    DestroyableIff(s, s.ops[h].table, protected);
    if s.ops[h].swept != map[] {
      StampedTablePinned(s, h, UnassignedNs(Unmarked), protected);
    }
  }

  // Such a state is reached from a new Realm: create a table over an unassigned slot and begin an unmap in it,
  // which finds nothing to stamp.
  const MAKE := World(Elsewhere(1, Delegated))
  const PLANT := Tree(CreateOver([0], 1))
  const OPEN := Unmap(Open(7, [0], FlData))
  const DESTROY := Tree(DestroyBreak([0], true))

  lemma EmptySweepExample()
    ensures var s, run := Created(2, 0, false), [MAKE, PLANT, OPEN, DESTROY];
            Possible(s, run) && IsUnmap(After(s, run), 7) && After(s, run).ops[7].table !in After(s, run).tbl
  {
    EmptySweepSteps();
    hide *;
    var s0 := Created(2, 0, false);
    var s1 := Step(s0, MAKE);
    var s2 := Step(s1, PLANT);
    var s3 := Step(s2, OPEN);
    Nowhere(Step(s3, DESTROY));
    Unroll(s3, DESTROY, []);
    Unroll(s2, OPEN, [DESTROY] + []);
    Unroll(s1, PLANT, [OPEN] + ([DESTROY] + []));
    Unroll(s0, MAKE, [PLANT] + ([OPEN] + ([DESTROY] + [])));
    assert [MAKE] + ([PLANT] + ([OPEN] + ([DESTROY] + []))) == [MAKE, PLANT, OPEN, DESTROY];
  }

  lemma Nowhere(s: St)
    ensures Possible(s, []) && After(s, []) == s
  {
  }

  lemma EmptySweepSteps()
    ensures var s0 := Created(2, 0, false);
            && Enabled(s0, MAKE) && Enabled(Step(s0, MAKE), PLANT) && Enabled(Step(Step(s0, MAKE), PLANT), OPEN)
            && Enabled(Step(Step(Step(s0, MAKE), PLANT), OPEN), DESTROY)
            && var s4 := Step(Step(Step(Step(s0, MAKE), PLANT), OPEN), DESTROY);
            IsUnmap(s4, 7) && s4.ops[7].table !in s4.tbl
  {
    var s0 := Created(2, 0, false);
    KidsOfIff([], [0]);
    assert Parent([0]) == [];
    var s1 := Step(s0, MAKE);
    assert Idle(s1, [0]) && s1.leaf[[0]].d.Unassigned?;
    NewTableIdle(s1, [0], 1);
  }

  lemma Unroll(s: St, a: Act, run: seq<Act>)
    requires Enabled(s, a) && Possible(Step(s, a), run)
    ensures Possible(s, [a] + run) && After(s, [a] + run) == After(Step(s, a), run)
  {
    assert ([a] + run)[1..] == run;
  }

  lemma NewTableIdle(s: St, q: Path, addr: nat)
    requires Idle(s, q) && |q| < s.levels && s.leaf[q].d.Unassigned?
    ensures var r := PlantTable(s, q, addr, s.leaf[q].d); r.tbl[q].rc == 0 && Unlocked(r, q)
  {
    var r := PlantTable(s, q, addr, s.leaf[q].d);
    forall i | 0 <= i < ENTRIES && Kid(q, i) in r.leaf
      ensures !r.leaf[Kid(q, i)].owes && !r.leaf[Kid(q, i)].d.Broken?
    {
      KidOf(q, i);
      KidsOfIff(q, Kid(q, i));
    }
  }
}
