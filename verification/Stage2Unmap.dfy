/**
  * An unmap operation gives back all it took, however often it yields and whatever runs in between.
  */
module Stage2Unmap {
  import opened Stage2
  import opened Stage2Steps
  import opened Stage2Inv
  import opened Stage2Ops
  import opened Stage2Theorems

  // ---------------------------------------------------------------- a stamped slot

  predicate Swept(s: St, h: nat, q: Path) {
    IsUnmap(s, h) && q in s.ops[h].swept
  }

  // If operation h has swept slot q, the slot holds its marker over what the entry it found becomes.
  predicate Stamped(s: St, h: nat, q: Path) {
    Swept(s, h, q) ==>
      && var d := s.ops[h].swept[q];
      && (Backed(d) || d.AssignedNs?) && q in s.leaf && MarkedBy(s.leaf[q].d, h)
      && s.leaf[q] == Leaf(SetMark(Unmapped(d), s.leaf[q].d.mark), false)
  }

  lemma OwnStepStamped(s: St, u: UnmapAct, h: nat, q: Path)
    requires UnmapEnabled(s, u) && u.h == h && u != Close(h) && IsUnmap(s, h) && Stamped(s, h, q)
    ensures IsUnmap(UnmapStep(s, u), h) && Stamped(UnmapStep(s, u), h, q)
  {
    hide Span, InRegion, WholeRegion;
  }

  lemma OwnActIsUnmap(s: St, a: Act, h: nat)
    requires Enabled(s, a) && Actor(a) == Some(h) && IsUnmap(s, h)
    ensures a.Unmap? && a.u.h == h && UnmapEnabled(s, a.u) && Step(s, a) == UnmapStep(s, a.u)
  {
    hide UnmapEnabled, UnmapStep;
  }

  // Others change neither what the operation remembers nor the slots that hold its marker.
  lemma OthersKeepOp(s: St, a: Act, h: nat)
    requires Inv(s) && Enabled(s, a) && Actor(a) != Some(h) && IsUnmap(s, h)
    ensures IsUnmap(Step(s, a), h) && Step(s, a).ops[h] == s.ops[h]
  {
    hide Inv, Enabled, Step;
    StepUndisturbed(s, a);
    assert h !in ActorSet(a);
  }

  lemma OthersLeave(s: St, a: Act, h: nat, q: Path)
    requires Inv(s) && Enabled(s, a) && Actor(a) != Some(h) && IsUnmap(s, h) && Stamped(s, h, q)
    ensures IsUnmap(Step(s, a), h) && Step(s, a).ops[h] == s.ops[h] && Stamped(Step(s, a), h, q)
  {
    hide Inv, Enabled, Step;
    OthersKeepOp(s, a, h);
    if Swept(s, h, q) {
      OwnedSlotStep(s, a, q, h);
    }
  }

  lemma StepStamped(s: St, a: Act, h: nat, q: Path)
    requires Inv(s) && Enabled(s, a) && a != Unmap(Close(h)) && IsUnmap(s, h) && Stamped(s, h, q)
    ensures IsUnmap(Step(s, a), h) && Stamped(Step(s, a), h, q)
  {
    hide Inv, Enabled, Step, UnmapEnabled, UnmapStep, Stamped;
    if Actor(a) == Some(h) {
      OwnActIsUnmap(s, a, h);
      OwnStepStamped(s, a.u, h, q);
    } else {
      OthersLeave(s, a, h, q);
    }
  }

  lemma MapMakesNoUnmap(s: St, m: MapAct, h: nat)
    requires MapEnabled(s, m) && !IsUnmap(s, h)
    ensures !IsUnmap(MapStep(s, m), h)
  {
    hide Span;
  }

  lemma UnmapBeginsEmpty(s: St, u: UnmapAct, h: nat, q: Path)
    requires UnmapEnabled(s, u) && !IsUnmap(s, h)
    ensures !Swept(UnmapStep(s, u), h, q)
  {
    hide Span, InRegion, WholeRegion;
  }

  lemma TreeBeginsNone(s: St, t: TreeAct)
    requires TreeEnabled(s, t)
    ensures TreeStep(s, t).ops == s.ops
  {
    hide Span, Spread, KidsOf, FoldsTo, Unlocked;
  }

  // An unmap begins with nothing swept.
  lemma BeginsEmpty(s: St, a: Act, h: nat, q: Path)
    requires Enabled(s, a) && !IsUnmap(s, h)
    ensures !Swept(Step(s, a), h, q)
  {
    hide MapEnabled, MapStep, UnmapEnabled, UnmapStep, TreeEnabled, TreeStep;
    match a
    case World(_) =>
    case Tree(t) => TreeBeginsNone(s, t);
    case Map(m) => MapMakesNoUnmap(s, m, h);
    case Unmap(u) => UnmapBeginsEmpty(s, u, h, q);
  }

  lemma CloseEndsIt(s: St, h: nat)
    requires Enabled(s, Unmap(Close(h)))
    ensures !IsUnmap(Step(s, Unmap(Close(h))), h)
  {
  }

  // In every run, a slot that an unmap has swept and not yet unmarked holds its marker over what the entry becomes.
  lemma {:induction false} RunStamped(s: St, run: seq<Act>, h: nat, q: Path)
    requires Inv(s) && Possible(s, run) && Stamped(s, h, q)
    ensures Stamped(After(s, run), h, q)
    decreases |run|
  {
    hide Inv, Enabled, Step;
    if run != [] {
      StepKeepsInv(s, run[0]);
      if !IsUnmap(s, h) {
        BeginsEmpty(s, run[0], h, q);
      } else if run[0] == Unmap(Close(h)) {
        CloseEndsIt(s, h);
      } else {
        StepStamped(s, run[0], h, q);
      }
      RunStamped(Step(s, run[0]), run[1..], h, q);
    }
  }

  // ---------------------------------------------------------------- what one step does to a slot and to a page

  // The step removes the marker of h from slot q: what is left is what entry d becomes when unmapped, and the table
  // has one reference less.
  predicate Unmarks(s: St, a: Act, h: nat, q: Path, d: Desc)
    requires Enabled(s, a) && (Backed(d) || d.AssignedNs?)
  {
    var t := Step(s, a);
    && a == Unmap(Unmark(h, q)) && !Swept(t, h, q) && q in t.leaf && t.leaf[q] == Leaf(Unmapped(d), false)
    && q != [] && Parent(q) in s.tbl && t.tbl == s.tbl[Parent(q) := s.tbl[Parent(q)].(rc := s.tbl[Parent(q)].rc - 1)]
  }

  // The step makes h give up page p, which becomes DELEGATED.
  predicate Returns(s: St, a: Act, h: nat, p: nat)
    requires Enabled(s, a)
  {
    OpClaims(s, h, p) && !OpClaims(Step(s, a), h, p) && Is(Step(s, a), p, Delegated)
  }

  // The step makes h take page p from a slot that maps it.
  predicate TakesFromSlot(s: St, a: Act, h: nat, p: nat) {
    a.Unmap? && a.u.Sweep? && a.u.h == h && SlotClaims(s, a.u.q, p)
  }

  lemma OwnSlotFate(s: St, u: UnmapAct, h: nat, q: Path)
    requires UnmapEnabled(s, u) && u.h == h && u != Close(h) && IsUnmap(s, h) && Stamped(s, h, q) && Swept(s, h, q)
    ensures var d := s.ops[h].swept[q];
            || (Swept(UnmapStep(s, u), h, q) && UnmapStep(s, u).ops[h].swept[q] == d)
            || Unmarks(s, Unmap(u), h, q, d)
  {
    hide Span, InRegion, WholeRegion;
  }

  lemma OwnPageFate(s: St, u: UnmapAct, h: nat, p: nat)
    requires UnmapEnabled(s, u) && u.h == h && u != Close(h) && IsUnmap(s, h) && (OpClaims(s, h, p) ==> p in s.gran)
    ensures IsUnmap(UnmapStep(s, u), h)
    ensures OpClaims(s, h, p) && !OpClaims(UnmapStep(s, u), h, p) ==> Returns(s, Unmap(u), h, p)
    ensures !OpClaims(s, h, p) && OpClaims(UnmapStep(s, u), h, p) ==> TakesFromSlot(s, Unmap(u), h, p)
  {
    hide Span, InRegion, WholeRegion;
  }

  // A slot that h has swept stays so, with the entry that was found there, until it is unmarked.
  lemma SlotFate(s: St, a: Act, h: nat, q: Path)
    requires Inv(s) && Enabled(s, a) && a != Unmap(Close(h)) && IsUnmap(s, h) && Stamped(s, h, q) && Swept(s, h, q)
    ensures var d := s.ops[h].swept[q];
            || (Swept(Step(s, a), h, q) && Step(s, a).ops[h].swept[q] == d)
            || Unmarks(s, a, h, q, d)
  {
    hide Inv, Enabled, Step, UnmapEnabled, UnmapStep, Unmarks;
    if Actor(a) == Some(h) {
      OwnActIsUnmap(s, a, h);
      OwnSlotFate(s, a.u, h, q);
    } else {
      OthersLeave(s, a, h, q);
    }
  }

  // A page goes from its slot to h when the slot is swept, and from h to DELEGATED; nothing else moves it.
  lemma PageFate(s: St, a: Act, h: nat, p: nat)
    requires Inv(s) && Enabled(s, a) && a != Unmap(Close(h)) && IsUnmap(s, h)
    ensures IsUnmap(Step(s, a), h)
    ensures OpClaims(s, h, p) && !OpClaims(Step(s, a), h, p) ==> Returns(s, a, h, p)
    ensures !OpClaims(s, h, p) && OpClaims(Step(s, a), h, p) ==> TakesFromSlot(s, a, h, p)
  {
    hide Inv, Enabled, Step, UnmapEnabled, UnmapStep, Returns, TakesFromSlot;
    if Actor(a) == Some(h) {
      OwnActIsUnmap(s, a, h);
      ClaimedIsTracked(s, h, p);
      OwnPageFate(s, a.u, h, p);
    } else {
      OthersKeepOp(s, a, h);
    }
  }

  lemma ClaimedIsTracked(s: St, h: nat, p: nat)
    requires Inv(s)
    ensures OpClaims(s, h, p) ==> p in s.gran
  {
    assert Claims(s, ByOp(h), p) ==> Is(s, p, Want(s, ByOp(h)));
  }

  // ---------------------------------------------------------------- over a run

  predicate NeverCloses(run: seq<Act>, h: nat) {
    forall i :: 0 <= i < |run| ==> run[i] != Unmap(Close(h))
  }

  ghost predicate SomeUnmarks(s: St, run: seq<Act>, h: nat, q: Path, d: Desc)
    requires Possible(s, run) && (Backed(d) || d.AssignedNs?)
    decreases |run|
  {
    run != [] && (Unmarks(s, run[0], h, q, d) || SomeUnmarks(Step(s, run[0]), run[1..], h, q, d))
  }

  ghost predicate SomeReturns(s: St, run: seq<Act>, h: nat, p: nat)
    requires Possible(s, run)
    decreases |run|
  {
    run != [] && (Returns(s, run[0], h, p) || SomeReturns(Step(s, run[0]), run[1..], h, p))
  }

  lemma {:induction false} SlotIsUnmarked(s: St, run: seq<Act>, h: nat, q: Path)
    requires Inv(s) && Possible(s, run) && NeverCloses(run, h) && Swept(s, h, q) && Stamped(s, h, q)
    requires !Swept(After(s, run), h, q)
    ensures SomeUnmarks(s, run, h, q, s.ops[h].swept[q])
    decreases |run|
  {
    hide Inv, Enabled, Step, Unmarks;
    assert run != [];
    StepKeepsInv(s, run[0]);
    StepStamped(s, run[0], h, q);
    SlotFate(s, run[0], h, q);
    if !Unmarks(s, run[0], h, q, s.ops[h].swept[q]) {
      SlotIsUnmarked(Step(s, run[0]), run[1..], h, q);
    }
  }

  lemma {:induction false} PageIsReturned(s: St, run: seq<Act>, h: nat, p: nat)
    requires Inv(s) && Possible(s, run) && NeverCloses(run, h) && IsUnmap(s, h) && OpClaims(s, h, p)
    requires !OpClaims(After(s, run), h, p)
    ensures SomeReturns(s, run, h, p)
    decreases |run|
  {
    hide Inv, Enabled, Step, Returns, OpClaims;
    assert run != [];
    StepKeepsInv(s, run[0]);
    PageFate(s, run[0], h, p);
    if OpClaims(Step(s, run[0]), h, p) {
      PageIsReturned(Step(s, run[0]), run[1..], h, p);
    }
  }

  // A step that sweeps slot q is followed by one that unmarks it, and a step that takes page p by one that returns it.
  ghost predicate Settles(s: St, run: seq<Act>, h: nat, q: Path, p: nat)
    requires run != [] && Possible(s, run)
  {
    var a, t := run[0], Step(s, run[0]);
    && (!Swept(s, h, q) && Swept(t, h, q) ==>
          && q in s.leaf && (Backed(s.leaf[q].d) || s.leaf[q].d.AssignedNs?)
          && SomeUnmarks(t, run[1..], h, q, s.leaf[q].d))
    && (!OpClaims(s, h, p) && OpClaims(t, h, p) ==> TakesFromSlot(s, a, h, p) && SomeReturns(t, run[1..], h, p))
  }

  ghost predicate SettlesAll(s: St, run: seq<Act>, h: nat, q: Path, p: nat)
    requires Possible(s, run)
    decreases |run|
  {
    run == [] || (Settles(s, run, h, q, p) && SettlesAll(Step(s, run[0]), run[1..], h, q, p))
  }

  lemma OwnSweepFinds(s: St, u: UnmapAct, h: nat, q: Path)
    requires UnmapEnabled(s, u) && u.h == h && IsUnmap(s, h) && !Swept(s, h, q) && Swept(UnmapStep(s, u), h, q)
    ensures q in s.leaf && (Backed(s.leaf[q].d) || s.leaf[q].d.AssignedNs?)
    ensures UnmapStep(s, u).ops[h].swept[q] == s.leaf[q].d
  {
    hide Span, InRegion, WholeRegion;
  }

  // What a sweep remembers is what it found.
  lemma SweepFinds(s: St, a: Act, h: nat, q: Path)
    requires Inv(s) && Enabled(s, a) && IsUnmap(s, h) && !Swept(s, h, q) && Swept(Step(s, a), h, q)
    ensures q in s.leaf && (Backed(s.leaf[q].d) || s.leaf[q].d.AssignedNs?)
    ensures Step(s, a).ops[h].swept[q] == s.leaf[q].d
  {
    hide Inv, Enabled, Step, UnmapEnabled, UnmapStep;
    if Actor(a) == Some(h) {
      OwnActIsUnmap(s, a, h);
      OwnSweepFinds(s, a.u, h, q);
    } else {
      OthersLeave(s, a, h, q);
    }
  }

  lemma {:induction false} RunSettles(s: St, run: seq<Act>, h: nat, q: Path, p: nat)
    requires Inv(s) && Possible(s, run) && NeverCloses(run, h) && IsUnmap(s, h) && Stamped(s, h, q)
    requires !Swept(After(s, run), h, q) && !OpClaims(After(s, run), h, p)
    ensures SettlesAll(s, run, h, q, p)
    decreases |run|
  {
    hide Inv, Enabled, Step, OpClaims, Stamped, TakesFromSlot, SomeUnmarks, SomeReturns;
    if run != [] {
      var t := Step(s, run[0]);
      StepKeepsInv(s, run[0]);
      StepStamped(s, run[0], h, q);
      PageFate(s, run[0], h, p);
      if !Swept(s, h, q) && Swept(t, h, q) {
        SweepFinds(s, run[0], h, q);
        SlotIsUnmarked(t, run[1..], h, q);
      }
      if !OpClaims(s, h, p) && OpClaims(t, h, p) {
        PageIsReturned(t, run[1..], h, p);
      }
      RunSettles(t, run[1..], h, q, p);
    }
  }

  // ---------------------------------------------------------------- the whole operation

  // From any point at which an unmap is in flight, such as the end of its sweep, whatever runs until it can close: every
  // slot it has stamped is unmarked, in a step that leaves there what the entry it found becomes; every page it holds
  // becomes DELEGATED in the very step that gives it up; in the end it holds no page and no slot carries its marker.
  lemma UnmapReleases(s0: St, before: seq<Act>, h: nat, run: seq<Act>, q: Path, p: nat)
    requires Init(s0) && Possible(s0, before) && IsUnmap(After(s0, before), h)
    requires Possible(After(s0, before), run) && NeverCloses(run, h) && UnmapEnabled(After(After(s0, before), run), Close(h))
    ensures var s, t := After(s0, before), After(After(s0, before), run);
            && (Swept(s, h, q) ==>
                  var d := s.ops[h].swept[q]; (Backed(d) || d.AssignedNs?) && SomeUnmarks(s, run, h, q, d))
            && (Claims(s, ByOp(h), p) ==> SomeReturns(s, run, h, p))
            && !Claims(t, ByOp(h), p) && (q in t.leaf ==> !MarkedBy(t.leaf[q].d, h))
  {
    hide Inv, Enabled, Step, UnmapEnabled, Possible, After, SomeUnmarks, SomeReturns;
    InitHolds(s0);
    RunKeepsInv(s0, before);
    assert Stamped(s0, h, q);
    RunStamped(s0, before, h, q);
    ReleasesFrom(After(s0, before), h, run, q, p);
  }

  lemma ReleasesFrom(s: St, h: nat, run: seq<Act>, q: Path, p: nat)
    requires Inv(s) && IsUnmap(s, h) && Stamped(s, h, q) && Possible(s, run) && NeverCloses(run, h)
    requires UnmapEnabled(After(s, run), Close(h))
    ensures Swept(s, h, q) ==> SomeUnmarks(s, run, h, q, s.ops[h].swept[q])
    ensures Claims(s, ByOp(h), p) ==> SomeReturns(s, run, h, p)
    ensures !Claims(After(s, run), ByOp(h), p) && (q in After(s, run).leaf ==> !MarkedBy(After(s, run).leaf[q].d, h))
  {
    hide Enabled, Step, Stamped, SomeUnmarks, SomeReturns;
    ClosesEmpty(After(s, run), h, q, p) by { RunKeepsInv(s, run); }
    if Swept(s, h, q) {
      SlotIsUnmarked(s, run, h, q);
    }
    if OpClaims(s, h, p) {
      PageIsReturned(s, run, h, p);
    }
  }

  lemma ClosesEmpty(s: St, h: nat, q: Path, p: nat)
    requires Inv(s) && UnmapEnabled(s, Close(h))
    ensures !Swept(s, h, q) && !OpClaims(s, h, p) && (q in s.leaf ==> !MarkedBy(s.leaf[q].d, h))
  {
    if q in s.leaf && MarkedBy(s.leaf[q].d, h) {
      MapMark(s, h, q);
    }
  }

  lemma OpensEmpty(s: St, h: nat, table: Path, flavour: Flavour, q: Path)
    requires Enabled(s, Unmap(Open(h, table, flavour)))
    ensures IsUnmap(Step(s, Unmap(Open(h, table, flavour))), h) && Stamped(Step(s, Unmap(Open(h, table, flavour))), h, q)
  {
  }

  // From the first action of an unmap to the last, whatever runs in between: each slot it sweeps is unmarked later, and
  // then holds what the entry found by the sweep becomes when unmapped; each page it takes comes from a slot it sweeps
  // and becomes DELEGATED in the very step that gives it up; in the end it holds nothing.
  lemma UnmapSucceeds(s: St, h: nat, table: Path, flavour: Flavour, mid: seq<Act>, q: Path, p: nat)
    requires Inv(s) && Enabled(s, Unmap(Open(h, table, flavour)))
    requires Possible(Step(s, Unmap(Open(h, table, flavour))), mid) && NeverCloses(mid, h)
    requires UnmapEnabled(After(Step(s, Unmap(Open(h, table, flavour))), mid), Close(h))
    ensures var s1 := Step(s, Unmap(Open(h, table, flavour)));
            && SettlesAll(s1, mid, h, q, p) && !Claims(After(s1, mid), ByOp(h), p)
            && (q in After(s1, mid).leaf ==> !MarkedBy(After(s1, mid).leaf[q].d, h))
  {
    hide Inv, Enabled, Step, UnmapEnabled, Possible, After, SettlesAll, Stamped, OpClaims;
    var s1 := Step(s, Unmap(Open(h, table, flavour)));
    OpensEmpty(s, h, table, flavour, q);
    StepKeepsInv(s, Unmap(Open(h, table, flavour)));
    RunKeepsInv(s1, mid);
    ClosesEmpty(After(s1, mid), h, q, p);
    RunSettles(s1, mid, h, q, p);
  }
}
