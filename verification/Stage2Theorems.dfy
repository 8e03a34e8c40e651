/**
  * What the stage 2 engine guarantees along every run: every interleaving of commands,
  * continuations, hardware walks, Realm writes and the rest of the system.
  */
module Stage2Theorems {
  import opened Stage2
  import opened Stage2Steps
  import opened Stage2Inv
  import opened Stage2Tree
  import opened Stage2Own
  import opened Stage2Ops
  import opened Stage2Tlb

  // ---------------------------------------------------------------- every step keeps the invariant

  lemma WorldKeepsInv(s: St, a: WorldAct)
    requires Inv(s) && WorldEnabled(s, a)
    ensures Inv(WorldStep(s, a))
  {
    WorldKeepsOwn(s, a);
    WorldKeepsOps(s, a);
    WorldKeepsTlb(s, a);
  }

  lemma TreeKeepsInv(s: St, a: TreeAct)
    requires Inv(s) && TreeEnabled(s, a)
    ensures Inv(TreeStep(s, a))
  {
    TreeKeepsShape(s, a);
    TreeKeepsLeaves(s, a);
    TreeKeepsOwn(s, a);
    TreeKeepsOps(s, a);
    TreeKeepsTlb(s, a);
  }

  lemma MapKeepsInv(s: St, a: MapAct)
    requires Inv(s) && MapEnabled(s, a)
    ensures Inv(MapStep(s, a))
  {
    MapKeepsShape(s, a);
    MapKeepsLeaves(s, a);
    MapKeepsOwn(s, a);
    MapKeepsOps(s, a);
    MapKeepsTlb(s, a);
  }

  lemma UnmapKeepsInv(s: St, a: UnmapAct)
    requires Inv(s) && UnmapEnabled(s, a)
    ensures Inv(UnmapStep(s, a))
  {
    UnmapKeepsShape(s, a);
    UnmapKeepsLeaves(s, a);
    UnmapKeepsOwn(s, a);
    UnmapKeepsOps(s, a);
    UnmapKeepsTlb(s, a);
  }

  lemma StepKeepsInv(s: St, a: Act)
    requires Inv(s) && Enabled(s, a)
    ensures Inv(Step(s, a))
  {
    match a
    case World(w) => WorldKeepsInv(s, w);
    case Tree(t) => TreeKeepsInv(s, t);
    case Map(m) => MapKeepsInv(s, m);
    case Unmap(u) => UnmapKeepsInv(s, u);
  }

  // ---------------------------------------------------------------- runs

  // A Realm as it is created: one root table whose slots are unassigned.
  ghost predicate Init(s: St) {
    && s.levels > 0 && s.tbl.Keys == {[]} && s.tbl[[]].rc == 0 && s.leaf.Keys == KidsOf([])
    && (forall q :: q in s.leaf ==>
          !s.leaf[q].owes && Settled(s.leaf[q].d) && (s.leaf[q].d.Unassigned? || s.leaf[q].d.UnassignedNs?))
    && Is(s, s.tbl[[]].addr, Rtt) && s.ops == map[] && s.tlb == {}
  }

  ghost predicate Possible(s: St, run: seq<Act>)
    decreases |run|
  {
    run == [] || (Enabled(s, run[0]) && Possible(Step(s, run[0]), run[1..]))
  }

  function After(s: St, run: seq<Act>): (r: St)
    requires Possible(s, run)
    decreases |run|
  {
    if run == [] then s else After(Step(s, run[0]), run[1..])
  }

  lemma {:induction false} RunAppend(s: St, run: seq<Act>, a: Act)
    requires Possible(s, run) && Enabled(After(s, run), a)
    ensures Possible(s, run + [a]) && After(s, run + [a]) == Step(After(s, run), a)
    decreases |run|
  {
    if run == [] {
      assert run + [a] == [a];
      assert Possible(Step(s, a), [a][1..]);
    } else {
      assert (run + [a])[0] == run[0] && (run + [a])[1..] == run[1..] + [a];
      RunAppend(Step(s, run[0]), run[1..], a);
    }
  }

  lemma InitShape(s: St)
    requires Init(s)
    ensures Shape(s)
  {
    forall x ensures x in KidsOf([]) <==> x != [] && Parent(x) == [] && Last(x) < ENTRIES { KidsOfIff([], x); }
    forall t, i | t in s.tbl && 0 <= i < ENTRIES
      ensures InTree(s.leaf, s.tbl, Kid(t, i)) && !Counts(s.leaf, s.tbl, Kid(t, i))
    {
      KidOf(t, i);
    }
    CountAll(s.leaf, s.tbl, [], ENTRIES, false);
  }

  lemma InitHolds(s: St)
    requires Init(s)
    ensures Inv(s)
  {
    hide Shape, OwnInv, SoleInv;
    InitShape(s);
    InitOwn(s);
  }

  lemma InitOwn(s: St)
    requires Init(s)
    ensures OwnInv(s) && SoleInv(s)
  {
    hide Span;
    forall o, p | Claims(s, o, p) ensures o == ByTable([]) {}
  }

  lemma {:induction false} RunKeepsInv(s: St, run: seq<Act>)
    requires Inv(s) && Possible(s, run)
    ensures Inv(After(s, run))
    decreases |run|
  {
    if run != [] {
      StepKeepsInv(s, run[0]);
      RunKeepsInv(Step(s, run[0]), run[1..]);
    }
  }

  // ---------------------------------------------------------------- stale translations

  // A protected page that any walker can still reach is in use: it backs a slot, or an unmap that
  // has not finished invalidating holds it.  So it is not DELEGATED, not Non-secure, not a table.
  lemma ReachablePageInUse(s: St, c: Cached, p: nat)
    requires Inv(s) && c in s.tlb && Backed(c.d) && Within(c.d.pa, Pages(s, c.slot), p)
    ensures Is(s, p, Data) || Is(s, p, Mapped) || Is(s, p, Partial)
    ensures forall h :: Claims(s, ByOp(h), p) ==> IsUnmap(s, h) && !s.ops[h].draining
    ensures forall t :: !Claims(s, ByTable(t), p)
  {
    var o := CachedPage(s, c, p);
    assert Is(s, p, Want(s, o));
  }

  lemma StaleSafety(s: St, run: seq<Act>, c: Cached, p: nat)
    requires Init(s) && Possible(s, run)
    requires c in After(s, run).tlb && Backed(c.d) && Within(c.d.pa, Pages(After(s, run), c.slot), p)
    ensures exists k: nat :: Justified(After(s, run), c, k)
    ensures var r := After(s, run); Is(r, p, Data) || Is(r, p, Mapped) || Is(r, p, Partial)
  {
    InitHolds(s);
    RunKeepsInv(s, run);
    ReachablePageInUse(After(s, run), c, p);
  }

  // When an unmap gives a page back no walker reaches it, before or after.
  lemma ReturnedPageUnreachable(s: St, h: nat, p: nat, c: Cached)
    requires Inv(s) && IsUnmap(s, h) && s.ops[h].draining && p in s.ops[h].owned
    requires c in s.tlb && Backed(c.d)
    ensures !Within(c.d.pa, Pages(s, c.slot), p)
  {
    assert Claims(s, ByOp(h), p);
    if Within(c.d.pa, Pages(s, c.slot), p) {
      ReachablePageInUse(s, c, p);
    }
  }

  // When an unmap clears its marker nothing is cached through the slot.
  lemma ClearedSlotUncached(s: St, h: nat, q: Path, c: Cached)
    requires Inv(s) && UnmapEnabled(s, Unmark(h, q)) && c in s.tlb
    ensures !Below(q, c.slot)
  {
    assert OpOk(s, h) && SweptOk(s, h, q) && Cold(s, q);
    if Below(q, c.slot) {
      var k: nat :| Justified(s, c, k);
      OneLeaf(s.levels, s.leaf, s.tbl, c.slot, |q|, k);
      ColdUnused(s, c, k);
    }
  }

  // Break-before-make: no address is ever cached at two sizes.
  lemma NeverTwoSizes(s: St, run: seq<Act>, c: Cached, c': Cached)
    requires Init(s) && Possible(s, run)
    requires c in After(s, run).tlb && c' in After(s, run).tlb && Below(c.slot, c'.slot)
    ensures c.slot == c'.slot
  {
    InitHolds(s);
    RunKeepsInv(s, run);
  }

  // ---------------------------------------------------------------- reference counts

  // In every reachable state each table counts its tables, owned granules and markers.
  lemma RefcountExact(s: St, run: seq<Act>, t: Path)
    requires Init(s) && Possible(s, run) && t in After(s, run).tbl
    ensures var r := After(s, run); r.tbl[t].rc == CountUpTo(r.leaf, r.tbl, t, ENTRIES)
  {
    InitHolds(s);
    RunKeepsInv(s, run);
  }

  // A full count, as fold tests it, means that every slot holds a reference.
  lemma FullCountIsFull(s: St, t: Path, i: nat)
    requires Inv(s) && t in s.tbl && s.tbl[t].rc == ENTRIES && i < ENTRIES
    ensures Counts(s.leaf, s.tbl, Kid(t, i))
  {
    CountExtremes(s.leaf, s.tbl, t, ENTRIES, i);
  }

  // ---------------------------------------------------------------- slot ownership

  // The operation an action is performed for, if any.
  function Actor(a: Act): (r: Maybe<nat>) {
    match a
    case World(_) => None
    case Tree(_) => None
    case Map(MapInit(_, _)) => None
    case Map(UnprotMap(_, _, _)) => None
    case Map(Stamp(_, h, _, _)) => Some(h)
    case Map(TakePage(h)) => Some(h)
    case Map(TakeWhole(h)) => Some(h)
    case Map(Claim(h)) => Some(h)
    case Map(Zero(h)) => Some(h)
    case Map(Publish(h)) => Some(h)
    case Map(Finish(h)) => Some(h)
    case Map(Fail(h)) => Some(h)
    case Map(Undo(h)) => Some(h)
    case Map(Undone(h)) => Some(h)
    case Unmap(u) => Some(u.h)
  }

  function ActorSet(a: Act): (r: set<nat>) {
    match Actor(a) case None => {} case Some(h) => {h}
  }

  lemma MapUndisturbed(s: St, m: MapAct)
    requires MarkInv(s) && MapEnabled(s, m)
    ensures Undisturbed(s, MapStep(s, m), ActorSet(Map(m)))
  {
    hide MarkInv, MapEnabled, MapStep, Undisturbed;
    if m.TakePage? || m.TakeWhole? || m.Claim? || m.Zero? || m.Publish? || m.Fail? || m.Undo? {
      MapPagesUndisturbed(s, m);
    } else {
      MapSlotUndisturbed(s, m);
    }
  }

  lemma MapPagesUndisturbed(s: St, m: MapAct)
    requires MapEnabled(s, m)
    requires m.TakePage? || m.TakeWhole? || m.Claim? || m.Zero? || m.Publish? || m.Fail? || m.Undo?
    ensures Undisturbed(s, MapStep(s, m), ActorSet(Map(m)))
  {
    hide Span;
  }

  lemma MapSlotUndisturbed(s: St, m: MapAct)
    requires MarkInv(s) && MapEnabled(s, m)
    requires m.Stamp? || m.Finish? || m.Undone? || m.MapInit? || m.UnprotMap?
    ensures Undisturbed(s, MapStep(s, m), ActorSet(Map(m)))
  {
    hide Span;
  }

  lemma UnmapUndisturbed(s: St, u: UnmapAct)
    requires MarkInv(s) && UnmapEnabled(s, u)
    ensures Undisturbed(s, UnmapStep(s, u), ActorSet(Unmap(u)))
  {
    hide Span;
  }

  lemma WorldUndisturbed(s: St, w: WorldAct)
    requires WorldEnabled(s, w)
    ensures Undisturbed(s, WorldStep(s, w), {})
  {
  }

  lemma StepUndisturbed(s: St, a: Act)
    requires Inv(s) && Enabled(s, a)
    ensures Undisturbed(s, Step(s, a), ActorSet(a))
  {
    match a
    case World(w) => WorldUndisturbed(s, w);
    case Tree(t) => TreeKeepsMarks(s, t);
    case Map(m) => MapUndisturbed(s, m);
    case Unmap(u) => UnmapUndisturbed(s, u);
  }

  lemma OwnedSlotStep(s: St, a: Act, q: Path, h: nat)
    requires Inv(s) && Enabled(s, a) && q in s.leaf && MarkedBy(s.leaf[q].d, h) && Actor(a) != Some(h)
    ensures q in Step(s, a).leaf && Step(s, a).leaf[q] == s.leaf[q]
    ensures h in s.ops && h in Step(s, a).ops && Step(s, a).ops[h] == s.ops[h]
  {
    MapMark(s, h, q);
    StepUndisturbed(s, a);
    assert h !in ActorSet(a);
  }

  // What an operation remembers between its calls is changed by nobody else.
  lemma {:induction false} OpStays(s: St, run: seq<Act>, h: nat)
    requires Inv(s) && Possible(s, run) && h in s.ops
    requires forall i :: 0 <= i < |run| ==> Actor(run[i]) != Some(h)
    ensures var r := After(s, run); h in r.ops && r.ops[h] == s.ops[h] && r.levels == s.levels
    decreases |run|
  {
    hide Inv, Enabled, Step;
    if run != [] {
      StepUndisturbed(s, run[0]);
      assert h !in ActorSet(run[0]);
      StepKeepsInv(s, run[0]);
      OpStays(Step(s, run[0]), run[1..], h);
    }
  }

  // A marked slot and its table outlive every action of anyone but the operation that owns it.
  lemma {:induction false} OwnedSlotStays(s: St, run: seq<Act>, q: Path, h: nat)
    requires Inv(s) && Possible(s, run) && q in s.leaf && MarkedBy(s.leaf[q].d, h)
    requires forall i :: 0 <= i < |run| ==> Actor(run[i]) != Some(h)
    ensures var r := After(s, run); q in r.leaf && r.leaf[q] == s.leaf[q] && q != [] && Parent(q) in r.tbl
    ensures h in s.ops && h in After(s, run).ops && After(s, run).ops[h] == s.ops[h]
    decreases |run|
  {
    MapMark(s, h, q);
    if run != [] {
      OwnedSlotStep(s, run[0], q, h);
      StepKeepsInv(s, run[0]);
      OwnedSlotStays(Step(s, run[0]), run[1..], q, h);
    }
  }
}
