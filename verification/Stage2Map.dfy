/**
  * A map operation is all or nothing, however often it yields and whatever runs in between.
  */
module Stage2Map {
  import opened Stage2
  import opened Stage2Steps
  import opened Stage2Inv
  import opened Stage2Own
  import opened Stage2Ops
  import opened Stage2Theorems

  // The actions that end map operation h.
  predicate Ends(a: Act, h: nat) {
    a == Map(Finish(h)) || a == Map(Undone(h))
  }

  // The slot of a map operation, and what is to be mapped there.
  ghost predicate Mapping(s: St, h: nat, q: Path, l: Leaf, pa: nat, dev: bool) {
    && h in s.ops && s.ops[h].MapOp? && s.ops[h].slot == q && s.ops[h].pa == pa && s.ops[h].dev == dev
    && q in s.leaf && s.leaf[q] == l
  }

  lemma OwnStepKeepsMapping(s: St, m: MapAct, h: nat, q: Path, l: Leaf, pa: nat, dev: bool)
    requires MapEnabled(s, m) && Actor(Map(m)) == Some(h) && !Ends(Map(m), h) && Mapping(s, h, q, l, pa, dev)
    ensures Mapping(MapStep(s, m), h, q, l, pa, dev)
  {
  }

  lemma StepKeepsMapping(s: St, a: Act, h: nat, q: Path, l: Leaf, pa: nat, dev: bool)
    requires Inv(s) && Enabled(s, a) && !Ends(a, h) && Mapping(s, h, q, l, pa, dev)
    ensures Mapping(Step(s, a), h, q, l, pa, dev)
  {
    assert OpOk(s, h);
    if Actor(a) == Some(h) {
      assert a.Map?;
      OwnStepKeepsMapping(s, a.m, h, q, l, pa, dev);
    } else {
      OwnedSlotStep(s, a, q, h);
    }
  }

  lemma {:induction false} RunKeepsMapping(s: St, run: seq<Act>, h: nat, q: Path, l: Leaf, pa: nat, dev: bool)
    requires Inv(s) && Possible(s, run) && Mapping(s, h, q, l, pa, dev)
    requires forall i :: 0 <= i < |run| ==> !Ends(run[i], h)
    ensures Mapping(After(s, run), h, q, l, pa, dev)
    decreases |run|
  {
    if run != [] {
      StepKeepsInv(s, run[0]);
      StepKeepsMapping(s, run[0], h, q, l, pa, dev);
      RunKeepsMapping(Step(s, run[0]), run[1..], h, q, l, pa, dev);
    }
  }

  // When a map operation can finish, every page of the block is in its final state: zeroed DATA, or
  // MAPPED device memory of one coherency type.
  lemma FinishedPage(s: St, h: nat, p: nat)
    requires Inv(s) && MapEnabled(s, Finish(h)) && Within(s.ops[h].pa, Pages(s, s.ops[h].slot), p)
    ensures if s.ops[h].dev then Is(s, p, Mapped) && Coh(s, p) == s.ops[h].coh else Is(s, p, Data) && p in s.zero
  {
    assert OpOk(s, h);
    assert Claims(s, ByOp(h), p);
  }

  ghost predicate SlotIs(s: St, q: Path, l: Leaf) {
    q in s.leaf && s.leaf[q] == l
  }

  // Between its stamp and its end the slot of a map operation holds what it held, plus the marker.
  lemma StampedThroughout(s: St, q: Path, h: nat, pa: nat, dev: bool, mid: seq<Act>)
    requires Inv(s) && MapEnabled(s, Stamp(q, h, pa, dev)) && Possible(StampStep(s, q, h, pa, dev), mid)
    requires forall i :: 0 <= i < |mid| ==> !Ends(mid[i], h)
    ensures Inv(After(StampStep(s, q, h, pa, dev), mid))
    ensures Mapping(After(StampStep(s, q, h, pa, dev), mid), h, q,
                    Leaf(SetMark(s.leaf[q].d, Marked(h, false)), false), pa, dev)
  {
    MapKeepsInv(s, Stamp(q, h, pa, dev));
    var s1 := StampStep(s, q, h, pa, dev);
    assert Mapping(s1, h, q, Leaf(SetMark(s.leaf[q].d, Marked(h, false)), false), pa, dev);
    RunKeepsMapping(s1, mid, h, q, Leaf(SetMark(s.leaf[q].d, Marked(h, false)), false), pa, dev);
    RunKeepsInv(s1, mid);
  }

  lemma FinishInstalls(s: St, h: nat, q: Path, d: Desc, pa: nat, dev: bool)
    requires MapEnabled(s, Finish(h)) && d.Unassigned?
    requires Mapping(s, h, q, Leaf(SetMark(d, Marked(h, false)), false), pa, dev)
    ensures SlotIs(FinishStep(s, h), q, Leaf(MapResult(d, pa, dev), false)) && Pages(FinishStep(s, h), q) == Pages(s, q)
  {
  }

  ghost predicate Ready(s: St, pa: nat, dev: bool, p: nat) {
    if dev then Is(s, p, Mapped) && Coh(s, p) == Coh(s, pa) else Is(s, p, Data) && p in s.zero
  }

  lemma FinishReady(s: St, h: nat, p: nat)
    requires Inv(s) && MapEnabled(s, Finish(h)) && Within(s.ops[h].pa, Pages(s, s.ops[h].slot), p)
    ensures Ready(FinishStep(s, h), s.ops[h].pa, s.ops[h].dev, p)
  {
    FinishedPage(s, h, p);
    FinishedPage(s, h, s.ops[h].pa);
  }

  lemma UndoneRestores(s: St, h: nat, q: Path, d: Desc, pa: nat, dev: bool)
    requires MapEnabled(s, Undone(h)) && Settled(d) && d.Unassigned?
    requires Mapping(s, h, q, Leaf(SetMark(d, Marked(h, false)), false), pa, dev)
    ensures SlotIs(UndoneStep(s, h), q, Leaf(d, false))
  {
  }

  // A stamp is put on an unassigned slot that nobody owns.
  lemma StampOver(s: St, q: Path, h: nat, pa: nat, dev: bool)
    requires MapEnabled(s, Stamp(q, h, pa, dev))
    ensures Idle(s, q) && s.leaf[q].d.Unassigned?
  {
  }

  lemma UndoneHoldsNothing(s: St, h: nat, p: nat)
    requires Inv(s) && MapEnabled(s, Undone(h))
    ensures !Claims(s, ByOp(h), p)
  {
    assert OpOk(s, h);
  }

  // From the stamp to the end of a map operation, whatever happens in between: success installs the
  // requested block with the RIPAS and permissions the slot had, over pages that are all ready.
  lemma MapSucceeds(s: St, q: Path, h: nat, pa: nat, dev: bool, mid: seq<Act>, p: nat)
    requires Inv(s) && MapEnabled(s, Stamp(q, h, pa, dev)) && Possible(StampStep(s, q, h, pa, dev), mid)
    requires forall i :: 0 <= i < |mid| ==> !Ends(mid[i], h)
    requires MapEnabled(After(StampStep(s, q, h, pa, dev), mid), Finish(h))
    ensures var s3 := FinishStep(After(StampStep(s, q, h, pa, dev), mid), h);
            && SlotIs(s3, q, Leaf(MapResult(s.leaf[q].d, pa, dev), false))
            && (Within(pa, Pages(s3, q), p) ==> Ready(s3, pa, dev, p))
  {
    hide Inv, MapEnabled, Enabled, StampStep, FinishStep, SlotIs, Ready, Pages;
    StampedThroughout(s, q, h, pa, dev, mid);
    StampOver(s, q, h, pa, dev);
    var s2 := After(StampStep(s, q, h, pa, dev), mid);
    FinishInstalls(s2, h, q, s.leaf[q].d, pa, dev);
    if Within(pa, Pages(s2, q), p) {
      FinishReady(s2, h, p);
    }
  }

  // An action that makes map operation h give up page p returns it to DELEGATED in the same step.
  predicate GivesBack(s: St, a: Act, h: nat, p: nat)
    requires Enabled(s, a)
  {
    OpClaims(s, h, p) && !OpClaims(Step(s, a), h, p) ==> Is(Step(s, a), p, Delegated)
  }

  ghost predicate GivesBackAll(s: St, run: seq<Act>, h: nat, p: nat)
    requires Possible(s, run)
    decreases |run|
  {
    run == [] || (GivesBack(s, run[0], h, p) && GivesBackAll(Step(s, run[0]), run[1..], h, p))
  }

  lemma OwnStepGivesBack(s: St, m: MapAct, h: nat, p: nat)
    requires MapEnabled(s, m) && Actor(Map(m)) == Some(h) && !Ends(Map(m), h) && h in s.ops && s.ops[h].MapOp?
    requires OpClaims(s, h, p) && !OpClaims(MapStep(s, m), h, p) && MapOk(s, h)
    ensures Is(MapStep(s, m), p, Delegated)
  {
    hide Span;
  }

  lemma StepGivesBack(s: St, a: Act, h: nat, q: Path, l: Leaf, pa: nat, dev: bool, p: nat)
    requires Inv(s) && Enabled(s, a) && !Ends(a, h) && Mapping(s, h, q, l, pa, dev)
    ensures GivesBack(s, a, h, p)
  {
    hide Inv, Enabled, Step, MapEnabled, MapStep, MapOk, OpClaims;
    MappingMarked(s, h, q, l, pa, dev);
    if Actor(a) == Some(h) {
      OwnActIsMap(s, a, h);
      ActIsMap(s, a.m);
      if OpClaims(s, h, p) && !OpClaims(Step(s, a), h, p) {
        OwnStepGivesBack(s, a.m, h, p);
      }
    } else {
      OwnedSlotStep(s, a, q, h);
      SameLevels(s, a);
      SameClaims(s, Step(s, a), h, p);
    }
  }

  lemma MappingMarked(s: St, h: nat, q: Path, l: Leaf, pa: nat, dev: bool)
    requires Inv(s) && Mapping(s, h, q, l, pa, dev)
    ensures MapOk(s, h) && MarkedBy(s.leaf[q].d, h)
  {
    assert OpOk(s, h);
  }

  lemma ActIsMap(s: St, m: MapAct)
    requires Enabled(s, Map(m))
    ensures MapEnabled(s, m) && Step(s, Map(m)) == MapStep(s, m)
  {
    hide MapEnabled, MapStep;
  }

  lemma SameClaims(s: St, r: St, h: nat, p: nat)
    requires h in s.ops && h in r.ops && r.ops[h] == s.ops[h] && r.levels == s.levels
    ensures OpClaims(s, h, p) <==> OpClaims(r, h, p)
  {
    hide Span;
  }

  lemma TreeSameLevels(s: St, t: TreeAct)
    requires TreeEnabled(s, t)
    ensures TreeStep(s, t).levels == s.levels
  {
    hide Span;
  }

  lemma MapSameLevels(s: St, m: MapAct)
    requires MapEnabled(s, m)
    ensures MapStep(s, m).levels == s.levels
  {
    hide Span;
  }

  lemma UnmapSameLevels(s: St, u: UnmapAct)
    requires UnmapEnabled(s, u)
    ensures UnmapStep(s, u).levels == s.levels
  {
    hide Span;
  }

  lemma SameLevels(s: St, a: Act)
    requires Enabled(s, a)
    ensures Step(s, a).levels == s.levels
  {
    hide TreeEnabled, TreeStep, MapEnabled, MapStep, UnmapEnabled, UnmapStep, Span;
    match a
    case World(w) =>
    case Tree(t) => TreeSameLevels(s, t);
    case Map(m) => MapSameLevels(s, m);
    case Unmap(u) => UnmapSameLevels(s, u);
  }

  lemma OwnActIsMap(s: St, a: Act, h: nat)
    requires Enabled(s, a) && Actor(a) == Some(h) && h in s.ops && s.ops[h].MapOp?
    ensures a.Map? && MapEnabled(s, a.m) && Step(s, a) == MapStep(s, a.m)
  {
    hide MapEnabled, MapStep;
  }

  lemma {:induction false} RunGivesBack(s: St, run: seq<Act>, h: nat, q: Path, l: Leaf, pa: nat, dev: bool, p: nat)
    requires Inv(s) && Possible(s, run) && Mapping(s, h, q, l, pa, dev)
    requires forall i :: 0 <= i < |run| ==> !Ends(run[i], h)
    ensures GivesBackAll(s, run, h, p)
    decreases |run|
  {
    hide Inv, Enabled, Step, GivesBack, Mapping;
    if run != [] {
      assert !Ends(run[0], h);
      StepKeepsInv(s, run[0]);
      StepKeepsMapping(s, run[0], h, q, l, pa, dev);
      StepGivesBack(s, run[0], h, q, l, pa, dev, p);
      RunGivesBack(Step(s, run[0]), run[1..], h, q, l, pa, dev, p);
    }
  }

  lemma StampGivesBack(s: St, q: Path, h: nat, pa: nat, dev: bool, mid: seq<Act>, p: nat)
    requires Inv(s) && MapEnabled(s, Stamp(q, h, pa, dev)) && Possible(StampStep(s, q, h, pa, dev), mid)
    requires forall i :: 0 <= i < |mid| ==> !Ends(mid[i], h)
    ensures GivesBackAll(StampStep(s, q, h, pa, dev), mid, h, p)
  {
    hide Inv, GivesBackAll, Possible;
    MapKeepsInv(s, Stamp(q, h, pa, dev));
    var s1 := StampStep(s, q, h, pa, dev);
    assert Mapping(s1, h, q, Leaf(SetMark(s.leaf[q].d, Marked(h, false)), false), pa, dev);
    RunGivesBack(s1, mid, h, q, Leaf(SetMark(s.leaf[q].d, Marked(h, false)), false), pa, dev, p);
  }

  lemma UndoneReleases(s: St, h: nat)
    requires MapEnabled(s, Undone(h))
    ensures var q := s.ops[h].slot;
            && q != [] && Parent(q) in s.tbl
            && UndoneStep(s, h).tbl == s.tbl[Parent(q) := s.tbl[Parent(q)].(rc := s.tbl[Parent(q)].rc - 1)]
  {
  }

  // Failure restores the slot exactly and takes back the reference of the marker.  Every page the operation had was
  // returned to DELEGATED in the step that gave it up, and by then it holds none.
  lemma MapFails(s: St, q: Path, h: nat, pa: nat, dev: bool, mid: seq<Act>, p: nat)
    requires Inv(s) && MapEnabled(s, Stamp(q, h, pa, dev)) && Possible(StampStep(s, q, h, pa, dev), mid)
    requires forall i :: 0 <= i < |mid| ==> !Ends(mid[i], h)
    requires MapEnabled(After(StampStep(s, q, h, pa, dev), mid), Undone(h))
    ensures var s1 := StampStep(s, q, h, pa, dev);
            var s2 := After(s1, mid);
            && SlotIs(UndoneStep(s2, h), q, s.leaf[q]) && !Claims(s2, ByOp(h), p) && GivesBackAll(s1, mid, h, p)
            && q != [] && Parent(q) in s2.tbl
            && UndoneStep(s2, h).tbl == s2.tbl[Parent(q) := s2.tbl[Parent(q)].(rc := s2.tbl[Parent(q)].rc - 1)]
  {
    hide Inv, Possible, After, GivesBackAll, Claims, MapEnabled, Enabled, StampStep, UndoneStep, SlotIs;
    StampedThroughout(s, q, h, pa, dev, mid);
    StampOver(s, q, h, pa, dev);
    var s2 := After(StampStep(s, q, h, pa, dev), mid);
    UndoneHoldsNothing(s2, h, p);
    UndoneRestores(s2, h, q, s.leaf[q].d, pa, dev);
    StampGivesBack(s, q, h, pa, dev, mid, p);
    UndoneReleases(s2, h);
  }

  // At every yield `off` says what the operation owns: the first `off` pages are its own and in their
  // mapped state, and when tracked coarsely the whole block is its own and hidden as PARTIAL.
  lemma OwnedPrefix(s: St, h: nat, p: nat, o: Owner)
    requires Inv(s) && h in s.ops && s.ops[h].MapOp?
    requires Within(s.ops[h].pa, if s.ops[h].coarse then Pages(s, s.ops[h].slot) else s.ops[h].off, p)
    ensures Is(s, p, if s.ops[h].coarse then Partial else if s.ops[h].dev then Mapped else Data)
    ensures Claims(s, o, p) ==> o == ByOp(h)
  {
    assert Claims(s, ByOp(h), p);
  }

  // Every action of the operation brings it closer to its end.
  function Remaining(s: St, h: nat): (n: int)
    requires h in s.ops && s.ops[h].MapOp?
  {
    var o := s.ops[h];
    var all := Pages(s, o.slot);
    if o.rollback then o.off
    else if o.coarse then 2 + all - o.off
    else if o.off == all then 1
    else 3 + 2 * all - o.off
  }

  lemma MapProgress(s: St, m: MapAct, h: nat)
    requires MapEnabled(s, m) && Actor(Map(m)) == Some(h) && !Ends(Map(m), h)
    requires h in s.ops && s.ops[h].MapOp? && MapOk(s, h)
    ensures h in MapStep(s, m).ops && MapStep(s, m).ops[h].MapOp?
    ensures 0 <= Remaining(MapStep(s, m), h) < Remaining(s, h)
  {
  }
}
