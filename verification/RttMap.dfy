/**
  * The map commands: one slot is stamped, its block of memory is taken page by page or as a coarse
  * unit, and then the slot is completed, or everything is given back.
  */
module RttMap {
  import opened Stage2
  import opened Stage2Steps
  import opened Stage2Inv
  import opened Stage2Own
  import opened Stage2Ops
  import opened Stage2Theorems
  import opened Stage2Meaning
  import opened Stage2Map
  import opened Stage2Engine

  datatype MapReply = Installed | Pending | Refused

  // How many pages of its block the operation has claimed.
  function Claimed(s: St, h: nat): (n: nat)
    requires h in s.ops && s.ops[h].MapOp?
  {
    if s.ops[h].coarse then Pages(s, s.ops[h].slot) else s.ops[h].off
  }

  // The state as it would be had operation h taken nothing: its pages DELEGATED, the operation unknown.
  function Without(s: St, h: nat): (r: St)
    requires h in s.ops && s.ops[h].MapOp?
  {
    s.(gran := SetRange(s.gran, s.ops[h].pa, Claimed(s, h), Delegated), ops := s.ops - {h}, zero := {})
  }

  // The same operation, which may have taken or returned pages, in an otherwise unchanged state.
  ghost predicate SameMap(s0: St, s: St, h: nat) {
    && h in s0.ops && h in s.ops && s0.ops[h].MapOp? && s.ops[h].MapOp?
    && s.ops[h].slot == s0.ops[h].slot && s.ops[h].pa == s0.ops[h].pa && s.ops[h].dev == s0.ops[h].dev
    && Without(s, h) == Without(s0, h)
  }

  // What remains when operation h ends without having mapped anything.
  ghost predicate Abandoned(s0: St, s: St, h: nat) {
    && h in s0.ops && s0.ops[h].MapOp? && IsMap(s0, h)
    && s == UndoneStep(s0, h).(gran := Without(s0, h).gran, zero := s.zero)
  }

  // What remains when operation h has mapped its block.
  ghost predicate Completed(s0: St, s: St, h: nat) {
    && h in s0.ops && s0.ops[h].MapOp? && IsMap(s0, h)
    && var o := s0.ops[h];
    var n := Pages(s0, o.slot);
    && s == FinishStep(s0, h).(gran := SetRange(Without(s0, h).gran, o.pa, n, if o.dev then Mapped else Data), zero := s.zero)
    && (!o.dev ==> Block(o.pa, n) <= s.zero)
    && (o.dev ==> OneType(s, o.pa, n, Coh(s, o.pa)))
  }

  // ---------------------------------------------------------------- one action at a time

  lemma SameMapSelf(s: St, h: nat)
    requires h in s.ops && s.ops[h].MapOp?
    ensures SameMap(s, s, h)
  {
  }

  lemma SameMapTrans(s0: St, s1: St, s2: St, h: nat)
    requires SameMap(s0, s1, h) && SameMap(s1, s2, h)
    ensures SameMap(s0, s2, h)
  {
  }

  lemma TakePageSame(s: St, h: nat)
    requires MapEnabled(s, TakePage(h))
    ensures SameMap(s, MapStep(s, TakePage(h)), h)
  {
    var o, r := s.ops[h], MapStep(s, TakePage(h));
    assert SetRange(r.gran, o.pa, o.off + 1, Delegated) == SetRange(s.gran, o.pa, o.off, Delegated);
    assert r.ops - {h} == s.ops - {h};
  }

  lemma TakeWholeSame(s: St, h: nat)
    requires MapEnabled(s, TakeWhole(h))
    ensures SameMap(s, MapStep(s, TakeWhole(h)), h)
  {
    var o, r := s.ops[h], MapStep(s, TakeWhole(h));
    assert SetRange(r.gran, o.pa, Pages(s, o.slot), Delegated) == SetRange(s.gran, o.pa, 0, Delegated);
    assert r.ops - {h} == s.ops - {h};
  }

  lemma ClaimSame(s: St, h: nat)
    requires MapEnabled(s, Claim(h))
    ensures SameMap(s, MapStep(s, Claim(h)), h)
  {
    var o, r := s.ops[h], MapStep(s, Claim(h));
    assert SetRange(r.gran, o.pa, Pages(s, o.slot), Delegated) == SetRange(s.gran, o.pa, 0, Delegated);
    assert r.ops - {h} == s.ops - {h};
  }

  lemma ZeroSame(s: St, h: nat)
    requires MapEnabled(s, Zero(h))
    ensures SameMap(s, MapStep(s, Zero(h)), h)
  {
    assert MapStep(s, Zero(h)).ops - {h} == s.ops - {h};
  }

  lemma PublishSame(s: St, h: nat)
    requires MapEnabled(s, Publish(h))
    ensures SameMap(s, MapStep(s, Publish(h)), h)
  {
    var o, r := s.ops[h], MapStep(s, Publish(h));
    assert SetRange(r.gran, o.pa, o.off, Delegated) == SetRange(s.gran, o.pa, o.off, Delegated);
    assert r.ops - {h} == s.ops - {h};
  }

  lemma FailSame(s: St, h: nat)
    requires MapEnabled(s, Fail(h))
    ensures SameMap(s, MapStep(s, Fail(h)), h)
  {
    assert MapStep(s, Fail(h)).ops - {h} == s.ops - {h};
  }

  lemma LastPageTracked(s: St, h: nat)
    requires Inv(s) && h in s.ops && s.ops[h].MapOp? && !s.ops[h].coarse && s.ops[h].off > 0
    ensures s.ops[h].pa + s.ops[h].off - 1 in s.gran
  {
    assert Claims(s, ByOp(h), s.ops[h].pa + s.ops[h].off - 1);
  }

  lemma UndoSame(s: St, h: nat)
    requires MapEnabled(s, Undo(h)) && !s.ops[h].coarse && s.ops[h].pa + s.ops[h].off - 1 in s.gran
    ensures SameMap(s, MapStep(s, Undo(h)), h)
  {
    var o, r := s.ops[h], MapStep(s, Undo(h));
    assert SetRange(r.gran, o.pa, o.off - 1, Delegated) == SetRange(s.gran, o.pa, o.off, Delegated);
    assert r.ops - {h} == s.ops - {h};
  }

  lemma IsMapOf(s: St, h: nat)
    requires Inv(s) && h in s.ops && s.ops[h].MapOp?
    ensures IsMap(s, h) && s.ops[h].off <= Pages(s, s.ops[h].slot)
    ensures s.ops[h].coarse ==> !s.ops[h].dev && !s.ops[h].rollback
  {
    assert OpOk(s, h);
  }

  lemma UndoneAbandons(s0: St, s: St, h: nat)
    requires Inv(s0) && SameMap(s0, s, h) && MapEnabled(s, Undone(h)) && !s.ops[h].coarse
    ensures Abandoned(s0, MapStep(s, Undone(h)), h)
  {
    hide Inv, Span;
    IsMapOf(s0, h);
    assert s.leaf == s0.leaf && s.tbl == s0.tbl && s.ops - {h} == s0.ops - {h};
    assert SetRange(s.gran, s.ops[h].pa, 0, Delegated) == s.gran;
  }

  lemma FinishCompletes(s0: St, s: St, h: nat)
    requires Inv(s0) && Inv(s) && SameMap(s0, s, h) && MapEnabled(s, Finish(h))
    ensures Completed(s0, MapStep(s, Finish(h)), h)
  {
    hide Inv, Span;
    IsMapOf(s0, h);
    var o := s.ops[h];
    var n, to := Pages(s, o.slot), if o.dev then Mapped else Data;
    assert s.leaf == s0.leaf && s.tbl == s0.tbl && s.ops - {h} == s0.ops - {h};
    forall p | Within(o.pa, n, p)
      ensures Is(s, p, to) && (!o.dev ==> p in s.zero) && (o.dev ==> Coh(s, p) == o.coh)
    {
      FinishedPage(s, h, p);
    }
    FinishedPage(s, h, o.pa);
    RangeRestored(s.gran, o.pa, n, to);
    var r := MapStep(s, Finish(h));
    forall p | o.dev && o.pa <= p < o.pa + n
      ensures Coh(r, p) == Coh(r, o.pa)
    {
      assert Within(o.pa, n, p);
    }
  }

  lemma RangeRestored(g: map<nat, Granule>, lo: nat, n: nat, to: Granule)
    requires forall p :: Within(lo, n, p) ==> p in g && g[p] == to
    ensures SetRange(SetRange(g, lo, n, Delegated), lo, n, to) == g
  {
    forall p | p in g && lo <= p < lo + n
      ensures g[p] == to
    {
      assert Within(lo, n, p);
    }
  }

  // Progress of the operation before the rollback does not show in its outcome.
  lemma EndsLater(s0: St, s1: St, s2: St, h: nat, reply: MapReply)
    requires Inv(s0) && SameMap(s0, s1, h)
    requires reply == Pending ==> SameMap(s1, s2, h)
    requires reply == Refused ==> Abandoned(s1, s2, h)
    ensures reply == Pending ==> SameMap(s0, s2, h)
    ensures reply == Refused ==> Abandoned(s0, s2, h)
  {
    hide Inv, Abandoned;
    if reply == Refused {
      AbandonedLater(s0, s1, s2, h);
    }
  }

  lemma AbandonedLater(s0: St, s1: St, s2: St, h: nat)
    requires Inv(s0) && SameMap(s0, s1, h) && Abandoned(s1, s2, h)
    ensures Abandoned(s0, s2, h)
  {
    hide Inv, Pages, Span;
    IsMapOf(s0, h);
    assert s1.leaf == s0.leaf && s1.tbl == s0.tbl && s1.ops - {h} == s0.ops - {h};
  }

  // ---------------------------------------------------------------- rollback

  // Returns the pages taken so far, last one first, and then lets go of the slot.
  method Rollback(e: Engine, h: nat) returns (reply: MapReply)
    requires e.Valid() && h in e.s.ops && e.s.ops[h].MapOp? && e.s.ops[h].rollback
    modifies e
    ensures e.Valid()
    ensures (reply == Pending || reply == Refused) && e.irqs == old(e.irqs) + if reply == Pending then 1 else 0
    ensures reply == Pending ==>
              && SameMap(old(e.s), e.s, h) && h in e.s.ops && e.s.ops[h].MapOp? && !e.s.ops[h].coarse
              && e.s.ops[h].rollback && 0 < e.s.ops[h].off <= old(e.s.ops[h].off)
    ensures reply == Refused ==> Abandoned(old(e.s), e.s, h)
  {
    hide Inv, AlignInv, SameMap, Abandoned;
    SameMapSelf(e.s, h);
    IsMapOf(e.s, h);
    while e.s.ops[h].off > 0
      invariant e.Valid() && h in e.s.ops && e.s.ops[h].MapOp? && e.s.ops[h].rollback && IsMap(e.s, h)
      invariant !e.s.ops[h].coarse && e.s.ops[h].off <= old(e.s.ops[h].off) && SameMap(old(e.s), e.s, h)
      invariant e.irqs == old(e.irqs)
      decreases e.s.ops[h].off
    {
      var irq := e.Poll();
      if irq {
        return Pending;
      }
      LastPageTracked(e.s, h);
      UndoSame(e.s, h);
      SameMapTrans(old(e.s), e.s, MapStep(e.s, Undo(h)), h);
      e.Do(Map(Undo(h)));
      IsMapOf(e.s, h);
    }
    UndoneAbandons(old(e.s), e.s, h);
    e.Do(Map(Undone(h)));
    return Refused;
  }

  // ---------------------------------------------------------------- taking the memory

  // Zeroes the coarse unit, at least one page per call, and then makes it DATA as a whole.
  method ZeroCoarse(e: Engine, h: nat) returns (done: bool)
    requires e.Valid() && h in e.s.ops && e.s.ops[h].MapOp? && e.s.ops[h].coarse && e.s.ops[h].off < Pages(e.s, e.s.ops[h].slot)
    modifies e
    ensures e.Valid() && SameMap(old(e.s), e.s, h) && h in e.s.ops && e.s.ops[h].MapOp?
    ensures Pages(e.s, e.s.ops[h].slot) == old(Pages(e.s, e.s.ops[h].slot))
    ensures e.irqs == old(e.irqs) + if done then 0 else 1
    ensures !done ==> e.s.ops[h].coarse && old(e.s.ops[h].off) < e.s.ops[h].off < Pages(e.s, e.s.ops[h].slot)
    ensures done ==> !e.s.ops[h].coarse && !e.s.ops[h].rollback && e.s.ops[h].off == Pages(e.s, e.s.ops[h].slot)
  {
    hide Inv, AlignInv, SameMap;
    var all := Pages(e.s, e.s.ops[h].slot);
    SameMapSelf(e.s, h);
    IsMapOf(e.s, h);
    while e.s.ops[h].off < all
      invariant e.Valid() && h in e.s.ops && e.s.ops[h].MapOp? && IsMap(e.s, h)
      invariant e.s.ops[h].coarse && !e.s.ops[h].rollback
      invariant old(e.s.ops[h].off) <= e.s.ops[h].off <= all == Pages(e.s, e.s.ops[h].slot)
      invariant SameMap(old(e.s), e.s, h) && e.irqs == old(e.irqs)
      decreases all - e.s.ops[h].off
    {
      ZeroSame(e.s, h);
      SameMapTrans(old(e.s), e.s, MapStep(e.s, Zero(h)), h);
      e.Do(Map(Zero(h)));
      IsMapOf(e.s, h);
      if e.s.ops[h].off < all {
        var irq := e.Poll();
        if irq {
          return false;
        }
      }
    }
    PublishSame(e.s, h);
    SameMapTrans(old(e.s), e.s, MapStep(e.s, Publish(h)), h);
    e.Do(Map(Publish(h)));
    IsMapOf(e.s, h);
    return true;
  }

  lemma MayFail(s: St, h: nat)
    requires IsMap(s, h) && !s.ops[h].coarse && !s.ops[h].rollback && s.ops[h].off < Pages(s, s.ops[h].slot)
    ensures MapEnabled(s, Fail(h))
  {
  }

  // ---------------------------------------------------------------- when the memory can be had

  // The type a page of a device block must have.
  function TypeOf(s: St, h: nat): (ty: nat)
    requires h in s.ops && s.ops[h].MapOp?
  {
    if s.ops[h].off > 0 then s.ops[h].coh else Coh(s, s.ops[h].pa)
  }

  // Page p can be taken by map operation h.
  predicate Takable(s: St, h: nat, p: nat)
    requires h in s.ops && s.ops[h].MapOp?
  {
    Is(s, p, Delegated) && (s.ops[h].dev ==> Coh(s, p) == TypeOf(s, h))
  }

  // The rest of the block can be had: every page that is left is DELEGATED and of one type; and at the very first lookup
  // its tracking is not changing, and if it is tracked as one unit the block is that unit.
  ghost predicate Obtainable(s: St, h: nat, coarse: bool, busy: bool)
    requires h in s.ops && s.ops[h].MapOp?
  {
    var o, n := s.ops[h], Pages(s, s.ops[h].slot);
    o.coarse ||
    (&& (o.off == 0 ==> !busy && (coarse ==> n == Region(s)))
     && forall p :: o.pa + o.off <= p < o.pa + n ==> Takable(s, h, p))
  }

  // One lookup of the next page: it is taken, or the whole block is when it is tracked as one unit, or the
  // operation turns to rollback.  `coarse` and `busy` are what the tracking metadata answers.
  predicate NextRefused(s: St, h: nat, coarse: bool, busy: bool)
    requires h in s.ops && s.ops[h].MapOp?
  {
    var o, n := s.ops[h], Pages(s, s.ops[h].slot);
    || busy
    || (if coarse then
          n != Region(s) || !RangeIs(s.gran, o.pa, n, Delegated) || (o.dev && !OneType(s, o.pa, n, Coh(s, o.pa)))
        else !Takable(s, h, o.pa + o.off))
  }

  lemma NextEnabled(s: St, h: nat, coarse: bool)
    requires IsMap(s, h) && !s.ops[h].coarse && !s.ops[h].rollback && s.ops[h].off < Pages(s, s.ops[h].slot)
    requires !NextRefused(s, h, coarse, false) && (coarse ==> s.ops[h].off == 0)
    ensures MapEnabled(s, if !coarse then TakePage(h) else if s.ops[h].dev then TakeWhole(h) else Claim(h))
  {
    hide Span;
  }

  lemma TookMeans(s: St, a: MapAct, h: nat)
    requires MapEnabled(s, a) && (a.TakePage? || a.TakeWhole? || a.Claim? || a.Fail?) && a.h == h
    requires !s.ops[h].rollback
    ensures var r, o := MapStep(s, a), s.ops[h];
            && h in r.ops && r.ops[h].MapOp? && (r.ops[h].rollback <==> a.Fail?) && (r.ops[h].coarse <==> o.coarse || a.Claim?)
            && r.ops[h].off == (if a.TakePage? then o.off + 1 else if a.TakeWhole? then Pages(s, o.slot) else o.off)
            && r.ops[h].pa == o.pa && r.ops[h].dev == o.dev && r.ops[h].slot == o.slot
            && (a.TakePage? ==> r.ops[h].coh == TypeOf(s, h) || !o.dev)
  {
    hide Span;
  }

  method TakeNext(e: Engine, h: nat, coarse: bool, busy: bool)
    requires e.Valid() && h in e.s.ops && e.s.ops[h].MapOp? && !e.s.ops[h].coarse && !e.s.ops[h].rollback
    requires e.s.ops[h].off < Pages(e.s, e.s.ops[h].slot) && (coarse ==> e.s.ops[h].off == 0)
    modifies e
    ensures e.Valid() && SameMap(old(e.s), e.s, h) && h in e.s.ops && e.s.ops[h].MapOp?
    ensures e.s.ops[h].rollback <==> NextRefused(old(e.s), h, coarse, busy)
    ensures e.s.ops[h].coarse <==> !e.s.ops[h].rollback && coarse && !e.s.ops[h].dev
    ensures var o := old(e.s).ops[h];
            e.s.ops[h].off == if e.s.ops[h].rollback || e.s.ops[h].coarse then o.off
                              else if coarse then Pages(old(e.s), o.slot) else o.off + 1
    ensures !e.s.ops[h].rollback && !coarse && e.s.ops[h].dev ==> e.s.ops[h].coh == TypeOf(old(e.s), h)
    ensures e.s.ops[h].off <= Pages(e.s, e.s.ops[h].slot) == old(Pages(e.s, e.s.ops[h].slot)) && e.irqs == old(e.irqs)
  {
    hide Inv, AlignInv, SameMap, MapEnabled, MapStep, Pages;
    IsMapOf(e.s, h);
    MayFail(e.s, h);
    if NextRefused(e.s, h, coarse, busy) {
      TookMeans(e.s, Fail(h), h);
      FailSame(e.s, h);
      e.Do(Map(Fail(h)));
    } else {
      NextEnabled(e.s, h, coarse);
      if !coarse {
        TookMeans(e.s, TakePage(h), h);
        TakePageSame(e.s, h);
        e.Do(Map(TakePage(h)));
      } else if e.s.ops[h].dev {
        TookMeans(e.s, TakeWhole(h), h);
        TakeWholeSame(e.s, h);
        e.Do(Map(TakeWhole(h)));
      } else {
        TookMeans(e.s, Claim(h), h);
        ClaimSame(e.s, h);
        e.Do(Map(Claim(h)));
      }
    }
    SameMapIs(old(e.s), e.s, h);
    IsMapOf(e.s, h);
  }

  // A page that the operation has not claimed is what it was.
  lemma PageSame(s: St, r: St, h: nat, p: nat)
    requires SameMap(s, r, h) && s.ops[h].pa + Claimed(s, h) <= p && s.ops[h].pa + Claimed(r, h) <= p
    ensures (Is(s, p, Delegated) <==> Is(r, p, Delegated)) && Coh(s, p) == Coh(r, p)
  {
    hide Span, Pages, Claimed;
    var a := SetRange(s.gran, s.ops[h].pa, Claimed(s, h), Delegated);
    var b := SetRange(r.gran, s.ops[h].pa, Claimed(r, h), Delegated);
    assert a == b && (p in a <==> p in s.gran) && (p in b <==> p in r.gran);
    assert Without(s, h).coh == Without(r, h).coh;
  }

  // What can be had is not refused.
  lemma ObtainableNotRefused(s: St, h: nat, coarse: bool, busy: bool)
    requires h in s.ops && s.ops[h].MapOp? && !s.ops[h].coarse && s.ops[h].off < Pages(s, s.ops[h].slot)
    requires Obtainable(s, h, coarse, busy)
    ensures !NextRefused(s, h, coarse && s.ops[h].off == 0, busy && s.ops[h].off == 0)
  {
    var o, n := s.ops[h], Pages(s, s.ops[h].slot);
    hide Pages;
    forall p | o.pa + o.off <= p < o.pa + n
      ensures p in s.gran && s.gran[p] == Delegated && (o.dev ==> Coh(s, p) == TypeOf(s, h))
    {
      assert Takable(s, h, p);
    }
  }

  // What is taken as a whole could be had.
  lemma WholeObtainable(s: St, h: nat, busy: bool)
    requires h in s.ops && s.ops[h].MapOp? && s.ops[h].off == 0 && !NextRefused(s, h, true, busy)
    ensures Obtainable(s, h, true, busy)
  {
    hide Pages;
  }

  // Taking one page does not change whether the rest can be had.
  lemma PageObtainable(s: St, r: St, h: nat, coarse: bool, busy: bool)
    requires SameMap(s, r, h) && !s.ops[h].coarse && !r.ops[h].coarse && r.ops[h].off == s.ops[h].off + 1
    requires Pages(r, s.ops[h].slot) == Pages(s, s.ops[h].slot) && !(coarse && s.ops[h].off == 0)
    requires !NextRefused(s, h, false, busy && s.ops[h].off == 0) && (s.ops[h].dev ==> r.ops[h].coh == TypeOf(s, h))
    ensures Obtainable(s, h, coarse, busy) <==> Obtainable(r, h, coarse, busy)
  {
    hide Pages, SameMap;
    SameMapIs(s, r, h);
    var o, n := s.ops[h], Pages(s, s.ops[h].slot);
    forall p | o.pa + o.off < p < o.pa + n
      ensures Takable(s, h, p) <==> Takable(r, h, p)
    {
      PageSame(s, r, h, p);
    }
    if Obtainable(r, h, coarse, busy) {
      forall p | o.pa + o.off <= p < o.pa + n
        ensures Takable(s, h, p)
      {
        assert p > o.pa + o.off ==> Takable(r, h, p);
      }
    }
  }

  // A lookup does not change whether the rest can be had, and a refusal means that it cannot.
  lemma StillObtainable(s: St, r: St, h: nat, coarse: bool, busy: bool)
    requires SameMap(s, r, h) && !s.ops[h].coarse && s.ops[h].off < Pages(s, s.ops[h].slot)
    requires r.ops[h].rollback <==> NextRefused(s, h, coarse && s.ops[h].off == 0, busy && s.ops[h].off == 0)
    requires r.ops[h].coarse <==> !r.ops[h].rollback && coarse && s.ops[h].off == 0 && !r.ops[h].dev
    requires r.ops[h].off == if r.ops[h].rollback || r.ops[h].coarse then s.ops[h].off
                             else if coarse && s.ops[h].off == 0 then Pages(s, s.ops[h].slot) else s.ops[h].off + 1
    requires !r.ops[h].rollback && !(coarse && s.ops[h].off == 0) && r.ops[h].dev ==> r.ops[h].coh == TypeOf(s, h)
    ensures if r.ops[h].rollback then !Obtainable(s, h, coarse, busy)
            else Obtainable(s, h, coarse, busy) <==> Obtainable(r, h, coarse, busy)
  {
    hide SameMap, NextRefused, Pages, TypeOf, Takable;
    SameMapIs(s, r, h);
    if r.ops[h].rollback {
      if Obtainable(s, h, coarse, busy) {
        ObtainableNotRefused(s, h, coarse, busy);
      }
    } else if coarse && s.ops[h].off == 0 {
      WholeObtainable(s, h, busy);
    } else {
      hide Obtainable;
      PageObtainable(s, r, h, coarse, busy);
    }
  }

  // A block that is claimed as a unit, or taken to its end, could be had.
  lemma AllObtainable(s: St, h: nat, coarse: bool, busy: bool)
    requires h in s.ops && s.ops[h].MapOp? && (s.ops[h].coarse || s.ops[h].off == Pages(s, s.ops[h].slot))
    ensures Obtainable(s, h, coarse, busy)
  {
  }

  lemma SameMapIs(s: St, r: St, h: nat)
    requires SameMap(s, r, h)
    ensures h in s.ops && h in r.ops && s.ops[h].MapOp? && r.ops[h].MapOp?
    ensures r.ops[h].slot == s.ops[h].slot && r.ops[h].pa == s.ops[h].pa && r.ops[h].dev == s.ops[h].dev
    ensures r.levels == s.levels && r.unit == s.unit && Pages(r, s.ops[h].slot) == Pages(s, s.ops[h].slot)
  {
    assert Without(s, h).levels == Without(r, h).levels && Without(s, h).unit == Without(r, h).unit;
  }

  // A map operation between two calls: a coarse unit is made DATA in the call that zeroes its last page.
  predicate Resumable(s: St, h: nat) {
    h in s.ops && s.ops[h].MapOp? && (s.ops[h].coarse ==> s.ops[h].off < Pages(s, s.ops[h].slot))
  }

  // Whatever others do between two calls, the operation can be continued where it was left.
  lemma StaysResumable(s: St, run: seq<Act>, h: nat)
    requires Inv(s) && Possible(s, run) && Resumable(s, h)
    requires forall i :: 0 <= i < |run| ==> Actor(run[i]) != Some(h)
    ensures Resumable(After(s, run), h) && After(s, run).ops[h] == s.ops[h]
  {
    hide Inv, Possible, After, Span;
    OpStays(s, run, h);
  }

  // Takes the memory of the block from where it was left, yielding at an interrupt only once some of it
  // is held, and completes the slot; or gives everything back when a page cannot be had.
  // `coarse` and `busy` are what the tracking metadata answers at the first lookup.
  method DrainMap(e: Engine, h: nat, coarse: bool, busy: bool) returns (reply: MapReply)
    requires e.Valid() && Resumable(e.s, h)
    modifies e
    ensures e.Valid()
    ensures e.irqs == old(e.irqs) + if reply == Pending then 1 else 0
    ensures reply == Pending ==> SameMap(old(e.s), e.s, h) && Resumable(e.s, h) && Claimed(e.s, h) > 0
    ensures reply == Installed ==> !old(e.s).ops[h].rollback && Obtainable(old(e.s), h, coarse, busy)
    ensures reply == Refused || (reply == Pending && e.s.ops[h].rollback) ==>
              old(e.s).ops[h].rollback || !Obtainable(old(e.s), h, coarse, busy)
    ensures reply == Installed ==> Completed(old(e.s), e.s, h)
    ensures reply == Refused ==> Abandoned(old(e.s), e.s, h)
  {
    hide Inv, AlignInv, SameMap, Abandoned, Completed, Obtainable, NextRefused, TypeOf, Pages;
    SameMapSelf(e.s, h);
    IsMapOf(e.s, h);
    var all := Pages(e.s, e.s.ops[h].slot);
    while !e.s.ops[h].rollback && e.s.ops[h].off < all
      invariant e.Valid() && h in e.s.ops && e.s.ops[h].MapOp? && IsMap(e.s, h) && SameMap(old(e.s), e.s, h)
      invariant e.s.ops[h].off <= all == Pages(e.s, e.s.ops[h].slot) && (e.s.ops[h].coarse ==> e.s.ops[h].off < all)
      invariant e.irqs == old(e.irqs)
      invariant e.s.ops[h].rollback ==> old(e.s).ops[h].rollback || !Obtainable(old(e.s), h, coarse, busy)
      invariant !e.s.ops[h].rollback ==>
                  !old(e.s).ops[h].rollback && (Obtainable(old(e.s), h, coarse, busy) <==> Obtainable(e.s, h, coarse, busy))
      decreases all - e.s.ops[h].off, !e.s.ops[h].coarse, !e.s.ops[h].rollback
    {
      ghost var before := e.s;
      if e.s.ops[h].coarse {
        var done := ZeroCoarse(e, h);
        SameMapTrans(old(e.s), before, e.s, h);
        IsMapOf(e.s, h);
        AllObtainable(before, h, coarse, busy);
        AllObtainable(e.s, h, coarse, busy);
        if !done {
          return Pending;
        }
      } else {
        if e.s.ops[h].off != 0 {
          var irq := e.Poll();
          if irq {
            return Pending;
          }
        }
        var none := e.s.ops[h].off == 0;
        TakeNext(e, h, coarse && none, busy && none);
        SameMapTrans(old(e.s), before, e.s, h);
        IsMapOf(e.s, h);
        StillObtainable(before, e.s, h, coarse, busy);
      }
    }
    ghost var before := e.s;
    if e.s.ops[h].rollback {
      reply := Rollback(e, h);
      EndsLater(old(e.s), before, e.s, h, reply);
    } else {
      AllObtainable(e.s, h, coarse, busy);
      FinishCompletes(old(e.s), e.s, h);
      e.Do(Map(Finish(h)));
      reply := Installed;
    }
  }

  // ---------------------------------------------------------------- one block

  datatype EntryReply = AlreadyMapped | WrongEntry | SlotBusy | Stamped

  // What the command finds in the slot: only DATA_MAP accepts a block that is already mapped there.
  function Inspect(d: Desc, pa: nat, dev: bool): (r: EntryReply) {
    if d.Assigned? && !dev then (if d.pa == pa then AlreadyMapped else WrongEntry)
    else if !d.Unassigned? || (dev && d.ripas != Empty && d.ripas != Destroyed) then WrongEntry
    else if d.mark.Marked? then SlotBusy
    else EntryReply.Stamped
  }

  lemma StampIs(s: St, q: Path, h: nat, pa: nat, dev: bool)
    requires MapEnabled(s, Stamp(q, h, pa, dev))
    ensures var r := MapStep(s, Stamp(q, h, pa, dev)); Resumable(r, h) && Claimed(r, h) == 0
  {
  }

  // A stamp that is abandoned leaves no trace.
  lemma StampAbandoned(s0: St, s: St, q: Path, h: nat, pa: nat, dev: bool)
    requires MapEnabled(s0, Stamp(q, h, pa, dev)) && Abandoned(MapStep(s0, Stamp(q, h, pa, dev)), s, h)
    ensures s == s0.(zero := s.zero)
  {
    var s1 := MapStep(s0, Stamp(q, h, pa, dev));
    assert SetRange(s1.gran, pa, 0, Delegated) == s0.gran;
    assert s.leaf == s0.leaf;
    assert s.ops == s0.ops;
    assert s.tbl == s0.tbl;
  }

  // A stamp that is completed has mapped the block in its slot and nothing else.
  ghost predicate BlockMapped(s0: St, s: St, q: Path, pa: nat, dev: bool) {
    && Slot(s0, q) && s0.leaf[q].d.Unassigned?
    && s.leaf == s0.leaf[q := Leaf(MapResult(s0.leaf[q].d, pa, dev), false)]
    && s.tbl == s0.tbl[Parent(q) := s0.tbl[Parent(q)].(rc := s0.tbl[Parent(q)].rc + 1)]
    && s.gran == SetRange(s0.gran, pa, Pages(s0, q), if dev then Mapped else Data)
    && s.ops == s0.ops
    && (!dev ==> Block(pa, Pages(s0, q)) <= s.zero)
    && (dev ==> OneType(s, pa, Pages(s0, q), Coh(s, pa)))
  }

  lemma StampCompleted(s0: St, s: St, q: Path, h: nat, pa: nat, dev: bool)
    requires MapEnabled(s0, Stamp(q, h, pa, dev)) && Completed(MapStep(s0, Stamp(q, h, pa, dev)), s, h)
    ensures BlockMapped(s0, s, q, pa, dev)
  {
    var s1 := MapStep(s0, Stamp(q, h, pa, dev));
    assert SetRange(s1.gran, pa, 0, Delegated) == s0.gran;
    assert s.ops == s0.ops;
    assert s.leaf == s0.leaf[q := Leaf(MapResult(s0.leaf[q].d, pa, dev), false)];
  }

  // The memory of a block can be had: every page is DELEGATED, and of one type for a device; its tracking is not changing;
  // and if it is tracked as one unit the block is that unit.
  ghost predicate Available(s: St, q: Path, pa: nat, dev: bool, coarse: bool, busy: bool) {
    && !busy && (coarse ==> Pages(s, q) == Region(s))
    && forall p :: pa <= p < pa + Pages(s, q) ==> Is(s, p, Delegated) && (dev ==> Coh(s, p) == Coh(s, pa))
  }

  lemma StampObtainable(s: St, q: Path, h: nat, pa: nat, dev: bool, coarse: bool, busy: bool)
    requires MapEnabled(s, Stamp(q, h, pa, dev))
    ensures var r := MapStep(s, Stamp(q, h, pa, dev));
            && h in r.ops && r.ops[h].MapOp? && !r.ops[h].rollback
            && (Obtainable(r, h, coarse, busy) <==> Available(s, q, pa, dev, coarse, busy))
  {
    var r := MapStep(s, Stamp(q, h, pa, dev));
    assert r.ops[h] == MapOp(q, pa, dev, 0, 0, false, false) && r.gran == s.gran && r.coh == s.coh && Pages(r, q) == Pages(s, q);
    hide Pages, MapStep;
    forall p
      ensures Takable(r, h, p) <==> Is(s, p, Delegated) && (dev ==> Coh(s, p) == Coh(s, pa))
    {
    }
  }

  // One call of DATA_MAP or DEV_MAP for one block.  A slot is worked on if it is unassigned, of a RIPAS that suits the
  // command, and owned by nobody; DATA_MAP also accepts a block that is mapped there already.  If the call is not
  // interrupted it maps the block exactly when its memory can be had, and otherwise the tables, reference counts,
  // granule states and operations are exactly what they were.
  method MapBlock(e: Engine, q: Path, h: nat, pa: nat, dev: bool, coarse: bool, busy: bool)
    returns (entry: EntryReply, reply: MapReply)
    requires e.Valid() && Slot(e.s, q) && !e.s.leaf[q].owes && !e.s.leaf[q].d.Broken? && h !in e.s.ops
    requires e.s.levels - |q| <= BLOCK_HEIGHT && pa % Pages(e.s, q) == 0
    modifies e
    ensures e.Valid()
    ensures var d := old(e.s).leaf[q].d;
            var suits := d.Unassigned? && (dev ==> d.ripas == Empty || d.ripas == Destroyed);
            && (entry == EntryReply.Stamped <==> suits && d.mark == Unmarked)
            && (entry == SlotBusy <==> suits && d.mark.Marked?)
            && (entry == AlreadyMapped <==> !dev && d.Assigned? && d.pa == pa)
    ensures entry != EntryReply.Stamped ==> e.s == old(e.s)
    ensures e.irqs == old(e.irqs) + if entry == EntryReply.Stamped && reply == Pending then 1 else 0
    ensures entry == EntryReply.Stamped && reply != Pending ==>
              (reply == Installed <==> Available(old(e.s), q, pa, dev, coarse, busy))
    ensures entry == EntryReply.Stamped && reply == Refused ==> e.s == old(e.s).(zero := e.s.zero)
    ensures entry == EntryReply.Stamped && reply == Installed ==> BlockMapped(old(e.s), e.s, q, pa, dev)
    ensures entry == EntryReply.Stamped && reply == Pending ==>
              && SameMap(StampStep(old(e.s), q, h, pa, dev), e.s, h) && Resumable(e.s, h) && Claimed(e.s, h) > 0
              && (e.s.ops[h].rollback ==> !Available(old(e.s), q, pa, dev, coarse, busy))
  {
    hide Inv, AlignInv, SameMap, Abandoned, Completed, BlockMapped, Obtainable, Available;
    entry, reply := Inspect(e.s.leaf[q].d, pa, dev), Refused;
    if entry == EntryReply.Stamped {
      StampIs(e.s, q, h, pa, dev);
      StampObtainable(e.s, q, h, pa, dev, coarse, busy);
      e.Do(Map(Stamp(q, h, pa, dev)));
      reply := DrainMap(e, h, coarse, busy);
      if reply == Refused {
        StampAbandoned(old(e.s), e.s, q, h, pa, dev);
      } else if reply == Installed {
        StampCompleted(old(e.s), e.s, q, h, pa, dev);
      }
    }
  }
}
