/**
  * The unmap commands: one leaf table is swept, then invalidated, drained and unmarked, with a
  * yield wherever an interrupt is pending.
  */
module RttUnmap {
  import opened Stage2
  import opened Stage2Steps
  import opened Stage2Inv
  import opened Stage2Tree
  import opened Stage2Own
  import opened Stage2Ops
  import opened Stage2Tlb
  import opened Stage2Theorems
  import opened Stage2Meaning
  import opened Stage2Engine
  import opened UnmapSweep
  import opened UnmapInvalidate
  import opened UnmapDrain
  import opened UnmapClear
  import AddrList

  // The operation owns exactly the pages of these blocks, which do not overlap.
  ghost predicate Queue(s: St, h: nat, blocks: seq<nat>, n: nat) {
    && IsUnmap(s, h) && Holds(s.ops[h].owned, blocks, n) && Apart(blocks, n)
    && (s.ops[h].unit ==> |blocks| == 1)
  }

  // After the sweep, and in whatever order the list is put, the operation owns exactly its blocks.
  lemma QueueIs(s0: St, s: St, rs: seq<AddrList.Range>, rs': seq<AddrList.Range>, n: nat, h: nat, t: Path, i: nat, j: nat,
                single: bool)
    requires Inv(s0) && Inv(s) && SweepDone(s0, s, rs, n, h, t, i, j, single) && s.ops[h].flavour != FlUnprot
    requires |t| < s.levels && n == Span(s.levels - |t| - 1)
    requires multiset(AddrList.Expand(rs', n)) == multiset(AddrList.Expand(rs, n))
    ensures Queue(s, h, AddrList.Expand(rs', n), n)
  {
    hide *;
    SweepFacts(s0, s, rs, n, h, t, i, j, single);
    SweptBacked(s0, s, h, t, i, j);
    SoleOf(s0);
    FreedApart(s0, t, i, j);
    QueueOf(s0, s, rs, n, h, t, i, j, single);
    QueuePermuted(s, h, Freed(s0.leaf, t, i, j), AddrList.Expand(rs', n), n);
  }

  lemma QueueOf(s0: St, s: St, rs: seq<AddrList.Range>, n: nat, h: nat, t: Path, i: nat, j: nat, single: bool)
    requires SweepDone(s0, s, rs, n, h, t, i, j, single) && s.ops[h].flavour != FlUnprot
    requires Apart(Freed(s0.leaf, t, i, j), n)
    ensures Queue(s, h, Freed(s0.leaf, t, i, j), n)
  {
  }

  lemma QueuePermuted(s: St, h: nat, bs: seq<nat>, cs: seq<nat>, n: nat)
    requires Queue(s, h, bs, n) && multiset(bs) == multiset(cs) && n > 0
    ensures Queue(s, h, cs, n)
  {
    HoldsPermuted(s.ops[h].owned, bs, cs, n);
    ApartPermuted(bs, cs, n);
    assert |multiset(bs)| == |bs| && |multiset(cs)| == |cs|;
  }

  lemma SweepFacts(s0: St, s: St, rs: seq<AddrList.Range>, n: nat, h: nat, t: Path, i: nat, j: nat, single: bool)
    requires SweepDone(s0, s, rs, n, h, t, i, j, single)
    ensures i <= j && h in s0.ops && h in s.ops && s0.ops[h].UnmapOp? && s.ops[h].UnmapOp?
    ensures IsUnmap(s0, h) && IsUnmap(s, h) && Swept(s0, s, h, t, i, j)
    ensures s.levels == s0.levels && s.ops[h].flavour == s0.ops[h].flavour
    ensures s.ops[h].swept == LiveSlots(s0.leaf, t, i, j)
    ensures multiset(AddrList.Expand(rs, n)) == multiset(Freed(s0.leaf, t, i, j)) && (single ==> |rs| <= 1)
  {
    SweepLists(s0, s, rs, n, h, t, i, j, single);
  }

  lemma SoleOf(s: St)
    requires Inv(s)
    ensures SoleInv(s)
  {
  }

  // Every slot that a protected sweep passed and that was live held a protected entry.
  lemma SweptSlotBacked(s: St, h: nat, q: Path)
    requires Inv(s) && IsUnmap(s, h) && s.ops[h].flavour != FlUnprot && q in s.ops[h].swept
    ensures Backed(s.ops[h].swept[q])
  {
    assert OpOk(s, h) && SweptOk(s, h, q);
  }

  lemma SweptBacked(s0: St, s: St, h: nat, t: Path, i: nat, j: nat)
    requires Inv(s) && Swept(s0, s, h, t, i, j) && s.ops[h].flavour != FlUnprot
    ensures forall k :: i <= k < j && Kid(t, k) in s0.leaf && IsLive(s0.leaf[Kid(t, k)].d) ==> Backed(s0.leaf[Kid(t, k)].d)
  {
    hide Inv, IsLive, StampedSlots, AllLeaves;
    forall k | i <= k < j && Kid(t, k) in s0.leaf && IsLive(s0.leaf[Kid(t, k)].d)
      ensures Backed(s0.leaf[Kid(t, k)].d)
    {
      KidOf(t, k);
      assert Among(Kid(t, k), t, i, j);
      SweptSlotBacked(s, h, Kid(t, k));
    }
  }

  /**
    * The context of an unmap operation: the blocks it freed, and how far the drain of their memory
    * has come.  `pa` is the next page of the current block once that block has been entered.
    */
  class UnmapCtx {
    const h: nat
    const list: AddrList.List
    var desc: nat
    var blk: nat
    var pa: Maybe<nat>

    constructor (h: nat, list: AddrList.List)
      ensures this.h == h && this.list == list && desc == 0 && blk == 0 && pa == None
    {
      this.h := h;
      this.list := list;
      desc, blk, pa := 0, 0, None;
    }

    // The blocks not yet drained.
    ghost function Rest(): (r: seq<nat>)
      reads this, list
    {
      UnmapDrain.Rest(list.ranges, list.size, desc, blk)
    }

    // The operation owns exactly the pages the cursor has not passed.
    ghost predicate Linked(s: St)
      reads this, list
    {
      && list.Valid() && IsUnmap(s, h) && Apart(Rest(), list.size)
      && desc <= |list.ranges| && (desc < |list.ranges| ==> blk <= list.ranges[desc].cnt)
      && (pa.Some? ==> desc < |list.ranges| && blk < list.ranges[desc].cnt)
      && if s.ops[h].unit || pa.None? then
           && Holds(s.ops[h].owned, Rest(), list.size)
           && (s.ops[h].unit ==> |Rest()| == 1)
           && (pa.Some? ==> Rest() != [] && Within(Rest()[0], list.size, pa.get))
         else Left(s.ops[h].owned, Rest(), list.size, pa.get) && pa.get < Rest()[0] + list.size
    }

    // A context at its start is linked to an operation that owns the blocks of its list.
    lemma Links(s: St)
      requires list.Valid() && IsUnmap(s, h) && desc == 0 && blk == 0 && pa == None
      requires s.ops[h].flavour != FlUnprot ==> Queue(s, h, AddrList.Expand(list.ranges, list.size), list.size)
      ensures Resumable(s)
    {
      RestAtStart(list.ranges, list.size);
    }

    // Unprotected memory is not drained, so only the other flavours need the cursor.
    ghost predicate Resumable(s: St)
      reads this, list
    {
      IsUnmap(s, h) && (s.ops[h].flavour == FlUnprot || Linked(s))
    }

    // Whatever others do between two calls, the operation can be continued where it was left.
    lemma StaysResumable(s: St, run: seq<Act>)
      requires Inv(s) && Possible(s, run) && Resumable(s)
      requires forall i :: 0 <= i < |run| ==> Actor(run[i]) != Some(h)
      ensures Resumable(After(s, run))
    {
      OpStays(s, run, h);
    }
  }

  datatype Reply = Failed | Incomplete(end: nat) | Done(end: nat)

  lemma OpenIs(s: St, h: nat, t: Path, flavour: Flavour)
    requires h !in s.ops && Unlocked(s, t) && t in s.tbl
    ensures Enabled(s, Act.Unmap(Open(h, t, flavour)))
    ensures var r := Step(s, Act.Unmap(Open(h, t, flavour)));
            && Opened(r, h, t) && h in r.ops && r.ops[h].UnmapOp? && r.ops[h].flavour == flavour
            && Unlocked(r, t) && DropOp(r, h) == s
            && r.leaf == s.leaf && r.tbl == s.tbl && r.levels == s.levels && r.ops[h].swept == map[] && r.ops[h].owned == {}
            && r.unit == s.unit && IsUnmap(r, h)
  {
    assert s.ops[h := UnmapOp(t, flavour, map[], {}, false, false, NoSync)] - {h} == s.ops;
  }

  lemma CloseIs(s: St, h: nat)
    requires IsUnmap(s, h) && s.ops[h].swept == map[] && s.ops[h].owned == {}
    ensures Enabled(s, Act.Unmap(Close(h))) && Step(s, Act.Unmap(Close(h))) == DropOp(s, h)
  {
  }

  lemma UnprotOwnsNothing(s: St, h: nat)
    requires Inv(s) && IsUnmap(s, h) && s.ops[h].flavour == FlUnprot
    ensures s.ops[h].owned == {}
  {
    assert OpOk(s, h);
  }

  // A block that may be swept is aligned.
  lemma SweepAligned(s: St, h: nat, q: Path, unit: bool)
    requires AlignInv(s) && UnmapEnabled(s, Sweep(h, q, unit))
    ensures q in s.leaf && (s.leaf[q].d.Assigned? || s.leaf[q].d.AssignedDev? || s.leaf[q].d.AssignedNs?)
    ensures s.leaf[q].d.pa % Pages(s, q) == 0
    ensures Enabled(s, Act.Unmap(Sweep(h, q, unit))) && Step(s, Act.Unmap(Sweep(h, q, unit))) == SweepStep(s, h, q, unit)
  {
    assert Aligned(s, q, s.leaf[q].d);
  }

  // One slot is taken by the sweep: its block is queued, then its entry replaced and stamped.
  method TakeSlot(e: Engine, h: nat, q: Path, unit: bool, out: AddrList.List) returns (ok: bool)
    requires e.Valid() && out.Valid() && UnmapEnabled(e.s, Sweep(h, q, unit)) && out.size == Pages(e.s, q)
    modifies e, out
    ensures e.Valid() && out.Valid() && e.irqs == old(e.irqs)
    ensures ok <==> AddrList.Fits(old(out.ranges), out.limit, out.size, old(e.s).leaf[q].d.pa)
    ensures ok ==> e.s == SweepStep(old(e.s), h, q, unit)
    ensures ok ==> out.ranges == AddrList.Added(old(out.ranges), out.size, old(e.s).leaf[q].d.pa)
    ensures !ok ==> e.s == old(e.s) && out.ranges == old(out.ranges)
  {
    hide *;
    e.Sound();
    SweepAligned(e.s, h, q, unit);
    var pa := e.s.leaf[q].d.pa;
    ok := out.Add(pa);
    if ok {
      e.Do(Unmap(Sweep(h, q, unit)));
    }
  }

  // Takes slot idx: the list may be full, and a coarse unit ends the sweep.
  method SweepTake(e: Engine, h: nat, t: Path, start: nat, idx: nat, single: bool, tracking: Tracking, unit: bool,
                   out: AddrList.List, backing: Maybe<nat>, prev: Maybe<nat>, ghost s0: St)
    returns (outcome: Outcome)
    requires e.Valid() && out.Valid() && start <= idx < ENTRIES
    requires Taking(s0, e.s, out.ranges, out.size, h, t, start, idx, backing, prev, single, tracking, unit)
    modifies e, out
    ensures e.Valid() && out.Valid() && e.irqs == old(e.irqs)
    ensures outcome.Halt? <==> !AddrList.Fits(old(out.ranges), out.limit, out.size, old(e.s).leaf[Kid(t, idx)].d.pa)
    ensures !outcome.Halt? ==> (outcome.TookUnit? <==> unit)
    ensures outcome.Halt? ==> e.s == old(e.s) && out.ranges == old(out.ranges) && !outcome.error && idx > start
    ensures outcome.Went? ==>
              Sweeping(s0, e.s, out.ranges, out.size, h, t, start, idx + 1, outcome.backing, outcome.prev, single)
    ensures outcome.TookUnit? ==> SweepDone(s0, e.s, out.ranges, out.size, h, t, start, idx + 1, single)
  {
    var q := Kid(t, idx);
    var pa := e.s.leaf[q].d.pa;
    TakeEnabled(s0, e.s, out.ranges, out.size, h, t, start, idx, backing, prev, single, tracking, unit);
    if unit {
      UnitTaken(s0, e.s, out.ranges, out.size, h, t, start, idx, backing, prev, single, tracking);
      var ok := TakeSlot(e, h, q, true, out);
      return if ok then TookUnit else Halt(false);
    } else {
      SweepingTakes(s0, e.s, out.ranges, out.size, h, t, start, idx, backing, prev, single, tracking);
      var ok := TakeSlot(e, h, q, false, out);
      return if ok then Went(if e.s.ops[h].flavour == FlUnprot then None else Some(pa), Some(pa)) else Halt(false);
    }
  }

  lemma SweepingUnmap(s0: St, s: St, rs: seq<AddrList.Range>, n: nat, h: nat, t: Path, i: nat, j: nat,
                      backing: Maybe<nat>, prev: Maybe<nat>, single: bool)
    requires Sweeping(s0, s, rs, n, h, t, i, j, backing, prev, single)
    ensures IsUnmap(s, h) && (i == j ==> backing.None? && prev.None?)
  {
  }

  // The sweep at one slot: it passes over the slot, takes it, or stops there, as the request means.
  method SweepSlot(e: Engine, h: nat, t: Path, start: nat, idx: nat, fits: bool, single: bool, tracking: Tracking,
                   out: AddrList.List, backing: Maybe<nat>, prev: Maybe<nat>, ghost s0: St, ghost req: Request)
    returns (outcome: Outcome)
    requires e.Valid() && out.Valid() && start <= idx < ENTRIES == |req.tracking|
    requires Sweeping(s0, e.s, out.ranges, out.size, h, t, start, idx, backing, prev, single)
    requires Asks(e.s, h, start, single, out.limit, req) && tracking == req.tracking[idx] && (fits <==> idx < req.limit)
    modifies e, out
    ensures e.Valid() && out.Valid() && e.irqs == old(e.irqs)
    ensures outcome.Halt? <==> StopsAt(s0, t, req, idx)
    ensures !outcome.Halt? ==> (outcome.TookUnit? <==> EndsAfter(s0, t, req, idx))
    ensures outcome.Halt? ==> e.s == old(e.s) && out.ranges == old(out.ranges) && (outcome.error <==> idx == start)
    ensures !outcome.Halt? ==> fits
    ensures outcome.Went? ==>
              Sweeping(s0, e.s, out.ranges, out.size, h, t, start, idx + 1, outcome.backing, outcome.prev, single)
    ensures outcome.TookUnit? ==> SweepDone(s0, e.s, out.ranges, out.size, h, t, start, idx + 1, single)
  {
    hide Inv, SweepDone, Sweeping, Freed, Unlocked, Span, StopsAt, EndsAfter, AddrList.Fits;
    SweepingUnmap(s0, e.s, out.ranges, out.size, h, t, start, idx, backing, prev, single);
    JudgeMeans(s0, e.s, out.ranges, out.size, h, t, start, idx, backing, prev, single, req);
    var verdict := Judge(e.s, Kid(t, idx), e.s.ops[h].flavour, fits, backing, tracking);
    if verdict.Skip? {
      SweepingSkips(s0, e.s, out.ranges, out.size, h, t, start, idx, backing, prev, single);
      return Went(backing, prev);
    } else if !verdict.Take? {
      return Halt(verdict.Refuse? && idx == start);
    } else if single && prev.Some? && e.s.leaf[Kid(t, idx)].d.pa != prev.get + out.size {
      return Halt(false);
    }
    outcome := SweepTake(e, h, t, start, idx, single, tracking, verdict.unit, out, backing, prev, s0);
  }

  // The sweep of one leaf table, from slot `start` and over the slots below `limit`, which are those
  // that lie wholly in the requested range.  It stops at the first slot it may not or cannot take.
  method SweepTable(e: Engine, h: nat, t: Path, start: nat, limit: nat, single: bool, tracking: seq<Tracking>, out: AddrList.List)
    returns (error: bool, end: nat)
    requires e.Valid() && out.Valid() && out.ranges == []
    requires t in e.s.tbl && Unlocked(e.s, t) && start < ENTRIES && |tracking| == ENTRIES
    requires |t| < e.s.levels && out.size == Span(e.s.levels - |t| - 1) && Opened(e.s, h, t)
    modifies e, out
    ensures e.Valid() && out.Valid() && e.irqs == old(e.irqs)
    ensures var req := Request(old(e.s).ops[h].flavour, start, limit, single, out.limit, tracking);
            && (error <==> StopsAt(old(e.s), t, req, start)) && (!error ==> Reaches(old(e.s), t, req, end))
    ensures error ==> e.s == old(e.s) && out.ranges == []
    ensures !error ==> start < end <= ENTRIES && end <= limit
    ensures !error ==> SweepDone(old(e.s), e.s, out.ranges, out.size, h, t, start, end, single)
  {
    hide *;
    OpenedAsks(e.s, h, t, start, limit, single, out.limit, tracking);
    ghost var req := Request(e.s.ops[h].flavour, start, limit, single, out.limit, tracking);
    error, end := false, start;
    var backing: Maybe<nat> := None;
    var prev: Maybe<nat> := None;
    SweepingStarts(e.s, out.size, h, t, start, single);
    while end < ENTRIES
      invariant start <= end <= ENTRIES && (end > start ==> end <= limit)
      invariant e.Valid() && out.Valid() && e.irqs == old(e.irqs)
      invariant Sweeping(old(e.s), e.s, out.ranges, out.size, h, t, start, end, backing, prev, single)
      invariant !error && (end == start ==> e.s == old(e.s) && out.ranges == [])
      invariant forall k :: start <= k < end ==> !StopsAt(old(e.s), t, req, k) && !EndsAfter(old(e.s), t, req, k)
    {
      AsksStill(old(e.s), e.s, out.ranges, out.size, h, t, start, end, backing, prev, single, req);
      var outcome := SweepSlot(e, h, t, start, end, end < limit, single, tracking[end], out, backing, prev, old(e.s), req);
      if outcome.Halt? {
        error := outcome.error;
        ReachesIs(old(e.s), t, req, end);
        break;
      }
      end := end + 1;
      if outcome.TookUnit? {
        ReachesIs(old(e.s), t, req, end);
        return false, end;
      }
      backing, prev := outcome.backing, outcome.prev;
    }
    ReachesIs(old(e.s), t, req, end);
    SweepingEnds(old(e.s), e.s, out.ranges, out.size, h, t, start, end, backing, prev, single);
  }

  lemma OpenedAsks(s: St, h: nat, t: Path, i: nat, limit: nat, single: bool, room: nat, tracking: seq<Tracking>)
    requires Opened(s, h, t)
    ensures h in s.ops && s.ops[h].UnmapOp?
    ensures Asks(s, h, i, single, room, Request(s.ops[h].flavour, i, limit, single, room, tracking))
  {
  }

  lemma AsksStill(s0: St, s: St, rs: seq<AddrList.Range>, n: nat, h: nat, t: Path, i: nat, j: nat,
                  backing: Maybe<nat>, prev: Maybe<nat>, single: bool, req: Request)
    requires Sweeping(s0, s, rs, n, h, t, i, j, backing, prev, single) && Asks(s0, h, i, single, req.room, req)
    ensures Asks(s, h, i, single, req.room, req)
  {
  }

  lemma ReachesIs(s: St, t: Path, req: Request, end: nat)
    requires |req.tracking| == ENTRIES && req.start <= end <= ENTRIES
    requires forall k :: req.start <= k < end ==> !StopsAt(s, t, req, k)
    requires forall k :: req.start <= k < end - 1 ==> !EndsAfter(s, t, req, k)
    requires end == ENTRIES || StopsAt(s, t, req, end) || (end > req.start && EndsAfter(s, t, req, end - 1))
    ensures req.start < end ==> Reaches(s, t, req, end)
  {
    hide StopsAt, EndsAfter;
  }

  // Waits for the outstanding SMMU commands of h, then clears the tlbi bit they were issued for.
  // Gives up, with everything in place to resume, when an interrupt is pending first.
  method FinishInvalidation(e: Engine, h: nat) returns (yielded: bool)
    requires e.Valid() && IsUnmap(e.s, h) && !e.s.ops[h].sync.NoSync?
    modifies e
    ensures e.Valid() && Quieted(old(e.s), e.s, h) && SameWork(old(e.s), e.s, h)
    ensures e.irqs == old(e.irqs) + if yielded then 1 else 0
    ensures yielded ==> e.s == old(e.s)
    ensures !yielded ==> e.s.ops[h].sync.NoSync? && !OwesTlbi(e.s, h, old(e.s.ops[h].sync.at))
  {
    hide Inv, AlignInv, Quieted;
    SyncOwns(e.s, h);
    QuietedSelf(e.s, h);
    if e.s.ops[h].sync.Waiting? {
      var irq := e.Poll();
      if irq {
        return true;
      }
      SyncQuiet(e.s, h);
      e.Do(Unmap(SyncDone(h)));
      SyncOwns(e.s, h);
    }
    ClearQuiet(e.s, h);
    QuietedTrans(old(e.s), e.s, UnmapStep(e.s, TlbiClear(h)), h);
    e.Do(Unmap(TlbiClear(h)));
    return false;
  }

  // Invalidates the translations of one slot.
  method InvalidateSlot(e: Engine, h: nat, q: Path) returns (yielded: bool)
    requires e.Valid() && IsUnmap(e.s, h) && e.s.ops[h].sync.NoSync? && OwesTlbi(e.s, h, q)
    modifies e
    ensures e.Valid() && Quieted(old(e.s), e.s, h) && SameWork(old(e.s), e.s, h)
    ensures e.irqs == old(e.irqs) + if yielded then 1 else 0
    ensures !yielded ==> e.s.ops[h].sync.NoSync? && !OwesTlbi(e.s, h, q)
  {
    MarkedIsSwept(e.s, h, q);
    IssueQuiet(e.s, h, q);
    e.Do(Unmap(TlbiIssue(h, q)));
    ghost var issued := e.s;
    yielded := FinishInvalidation(e, h);
    QuietedTrans(old(e.s), issued, e.s, h);
  }

  // The invalidation pass over the table of h.  It restarts from slot 0 after every yield and is
  // done when no slot of h owes an invalidation; from then on it does nothing.
  method TlbiPending(e: Engine, h: nat) returns (yielded: bool)
    requires e.Valid() && IsUnmap(e.s, h)
    modifies e
    ensures e.Valid() && Quieted(old(e.s), e.s, h) && IsUnmap(e.s, h)
    ensures e.irqs == old(e.irqs) + if yielded then 1 else 0
    ensures !yielded ==> e.s.ops[h].draining
    ensures old(e.s.ops[h].draining) ==> !yielded && e.s == old(e.s)
  {
    hide Inv, AlignInv, Quieted, Scanned, OwesTlbi;
    QuietedSelf(e.s, h);
    if e.s.ops[h].draining {
      return false;
    }
    if !e.s.ops[h].sync.NoSync? {
      yielded := FinishInvalidation(e, h);
      if yielded {
        return;
      }
    }
    ScannedNone(e.s, h, e.s.ops[h].table);
    yielded := false;
    var t := e.s.ops[h].table;
    var i := 0;
    while i < ENTRIES
      invariant 0 <= i <= ENTRIES && e.Valid() && Quieted(old(e.s), e.s, h) && e.irqs == old(e.irqs)
      invariant !yielded && IsUnmap(e.s, h) && e.s.ops[h].table == t && e.s.ops[h].sync.NoSync? && !e.s.ops[h].draining
      invariant Scanned(e.s, h, t, i)
    {
      ghost var before := e.s;
      QuietedSelf(e.s, h);
      e.Walk();
      WalkQuiet(before, before, e.s, h);
      var irq := e.Poll();
      if irq {
        QuietedTrans(old(e.s), before, e.s, h);
        return true;
      }
      if OwesTlbi(e.s, h, Kid(t, i)) {
        ghost var walked := e.s;
        yielded := InvalidateSlot(e, h, Kid(t, i));
        QuietedTrans(before, walked, e.s, h);
      }
      QuietedTrans(old(e.s), before, e.s, h);
      if yielded {
        return;
      }
      ScannedKept(before, e.s, h, t, i);
      ScannedNext(e.s, h, t, i);
      i := i + 1;
    }
    ScanComplete(e.s, h);
    StartQuiet(e.s, h);
    QuietedTrans(old(e.s), e.s, UnmapStep(e.s, DrainStart(h)), h);
    e.Do(Unmap(DrainStart(h)));
  }

  // Returns the pages of the current block one by one, looking for an interrupt before each.
  method DrainFine(e: Engine, c: UnmapCtx, end: nat) returns (yielded: bool)
    requires e.Valid() && c.Linked(e.s) && e.s.ops[c.h].draining && !e.s.ops[c.h].unit
    requires c.pa.Some? && c.Rest() != [] && c.Rest()[0] + c.list.size == end
    modifies e, c
    ensures e.Valid() && Returned(old(e.s), e.s, c.h) && c.desc == old(c.desc) && c.blk == old(c.blk)
    ensures e.irqs == old(e.irqs) + if yielded then 1 else 0
    ensures yielded ==> c.Linked(e.s)
    ensures IsUnmap(e.s, c.h) && e.s.ops[c.h].draining
    ensures !yielded ==> !e.s.ops[c.h].unit && c.Rest() != [] && Holds(e.s.ops[c.h].owned, c.Rest()[1..], c.list.size)
  {
    hide Inv, AlignInv, Returned, Left, Holds, Apart;
    var h := c.h;
    ReturnedSelf(e.s, h);
    while c.pa.get < end
      invariant e.Valid() && Returned(old(e.s), e.s, h) && IsUnmap(e.s, h) && e.s.ops[h].draining && !e.s.ops[h].unit
      invariant c.pa.Some? && c.pa.get <= end && c.desc == old(c.desc) && c.blk == old(c.blk) && e.irqs == old(e.irqs)
      invariant c.Rest() == old(c.Rest()) && Left(e.s.ops[h].owned, c.Rest(), c.list.size, c.pa.get)
      decreases end - c.pa.get
    {
      var irq := e.Poll();
      if irq {
        return true;
      }
      LeftStep(e.s.ops[h].owned, c.Rest(), c.list.size, c.pa.get);
      PageReturned(e.s, h, c.pa.get);
      ReturnedTrans(old(e.s), e.s, UnmapStep(e.s, DrainPage(h, c.pa.get)), h);
      e.Do(Unmap(DrainPage(h, c.pa.get)));
      c.pa := Some(c.pa.get + 1);
    }
    LeftEnds(e.s.ops[h].owned, c.Rest(), c.list.size);
    return false;
  }

  // Cleans the one coarse unit page by page, at least one page per call, and then gives it back whole.
  method DrainCoarse(e: Engine, c: UnmapCtx, end: nat) returns (yielded: bool)
    requires e.Valid() && c.Linked(e.s) && e.s.ops[c.h].draining && e.s.ops[c.h].unit
    requires c.pa.Some? && c.Rest() != [] && c.Rest()[0] + c.list.size == end
    modifies e, c
    ensures e.Valid() && Returned(old(e.s), e.s, c.h) && c.desc == old(c.desc) && c.blk == old(c.blk)
    ensures e.irqs == old(e.irqs) + if yielded then 1 else 0
    ensures yielded ==> c.Linked(e.s) && e.s == old(e.s) && c.pa.Some? && old(c.pa.get) < c.pa.get
    ensures IsUnmap(e.s, c.h) && e.s.ops[c.h].draining
    ensures !yielded ==> !e.s.ops[c.h].unit && c.Rest() != [] && Holds(e.s.ops[c.h].owned, c.Rest()[1..], c.list.size)
  {
    hide Inv, AlignInv, Returned, Apart;
    var h := c.h;
    ReturnedSelf(e.s, h);
    var device := e.s.ops[h].flavour == FlDev;
    while !device && c.pa.get < end
      invariant e.Valid() && e.s == old(e.s) && c.desc == old(c.desc) && c.blk == old(c.blk) && e.irqs == old(e.irqs)
      invariant c.pa.Some? && old(c.pa.get) <= c.pa.get <= end && c.Rest() == old(c.Rest())
      decreases end - c.pa.get
    {
      c.pa := Some(c.pa.get + 1);
      if c.pa.get < end {
        var irq := e.Poll();
        if irq {
          return true;
        }
      }
    }
    UnitReturned(e.s, h);
    e.Do(Unmap(DrainPublish(h)));
    return false;
  }

  // Returns everything the operation has queued, block by block in list order.
  method DrainPending(e: Engine, c: UnmapCtx) returns (yielded: bool)
    requires e.Valid() && c.Linked(e.s) && e.s.ops[c.h].draining
    modifies e, c
    ensures e.Valid() && Returned(old(e.s), e.s, c.h) && c.Linked(e.s) && e.s.ops[c.h].draining
    ensures e.irqs == old(e.irqs) + if yielded then 1 else 0
    ensures !yielded ==> e.s.ops[c.h].owned == {}
  {
    hide Inv, AlignInv, Returned, Left, Holds, Apart, UnmapDrain.Rest;
    var h := c.h;
    ReturnedSelf(e.s, h);
    while c.desc < |c.list.ranges|
      invariant e.Valid() && Returned(old(e.s), e.s, h) && c.Linked(e.s) && e.s.ops[h].draining && e.irqs == old(e.irqs)
      decreases |c.list.ranges| - c.desc, if c.desc < |c.list.ranges| then c.list.ranges[c.desc].cnt - c.blk else 0
    {
      var range, n := c.list.ranges[c.desc], c.list.size;
      if c.blk >= range.cnt {
        RestNextRange(c.list.ranges, n, c.desc);
        ghost var rest := c.Rest();
        c.blk, c.desc := 0, c.desc + 1;
        assert c.Rest() == rest;
        continue;
      }
      var base := range.base + c.blk * n;
      RestNextBlock(c.list.ranges, n, c.desc, c.blk);
      ghost var next := UnmapDrain.Rest(c.list.ranges, n, c.desc, c.blk + 1);
      assert c.Rest()[1..] == next;
      if c.pa.None? {
        LeftStarts(e.s.ops[h].owned, c.Rest(), n);
        c.pa := Some(base);
      }
      ghost var before := e.s;
      if e.s.ops[h].unit {
        yielded := DrainCoarse(e, c, base + n);
      } else {
        yielded := DrainFine(e, c, base + n);
      }
      ReturnedTrans(old(e.s), before, e.s, h);
      if yielded {
        return;
      }
      ApartTail(c.Rest(), n);
      c.pa, c.blk := None, c.blk + 1;
      assert c.Rest() == next;
    }
    RestAtEnd(c.list.ranges, c.list.size, c.desc, c.blk);
    HoldsNothing(e.s.ops[h].owned, c.list.size);
    yielded := false;
  }

  // Clears the markers of h from its table and drops one reference for each.
  method ClearMarks(e: Engine, h: nat)
    requires e.Valid() && IsUnmap(e.s, h) && e.s.ops[h].draining && e.s.ops[h].owned == {}
    modifies e
    ensures e.Valid() && Clearing(old(e.s), e.s, h, ENTRIES) && e.irqs == old(e.irqs)
    ensures IsUnmap(e.s, h) && e.s.ops[h].swept == map[] && e.s.ops[h].owned == {}
  {
    hide Inv, AlignInv, Clearing;
    var t := e.s.ops[h].table;
    var i := 0;
    ClearingStarts(e.s, h);
    while i < ENTRIES
      invariant 0 <= i <= ENTRIES && e.Valid() && Clearing(old(e.s), e.s, h, i) && e.irqs == old(e.irqs)
      invariant IsUnmap(e.s, h) && e.s.ops[h].draining && e.s.ops[h].owned == {} && e.s.ops[h].table == t
    {
      SweptIsMarked(e.s, h, Kid(t, i));
      if Kid(t, i) in e.s.leaf && MarkedBy(e.s.leaf[Kid(t, i)].d, h) {
        ClearingClears(old(e.s), e.s, h, i);
        e.Do(Unmap(Unmark(h, Kid(t, i))));
      } else {
        ClearingSkips(old(e.s), e.s, h, i);
      }
      i := i + 1;
    }
    ClearingEnds(old(e.s), e.s, h);
  }

  // The deferred work of an unmap: invalidate, then return the memory, then let go of the slots.
  // It yields at any interrupt and is called again to continue.
  method DrainAndClear(e: Engine, c: UnmapCtx) returns (yielded: bool)
    requires e.Valid() && c.Resumable(e.s)
    modifies e, c
    ensures e.Valid() && IsUnmap(e.s, c.h)
    ensures e.irqs == old(e.irqs) + if yielded then 1 else 0
    ensures yielded ==> c.Resumable(e.s) && e.s.ops[c.h].swept == old(e.s.ops[c.h].swept)
    ensures !yielded ==> e.s.ops[c.h].swept == map[] && e.s.ops[c.h].owned == {} && Released(old(e.s), e.s, c.h)
  {
    hide Inv, AlignInv, Left, Holds, Apart, Clearing, Released, OwesTlbi;
    yielded := TlbiPending(e, c.h);
    if yielded {
      return;
    }
    ghost var quiet := e.s;
    ReturnedSelf(e.s, c.h);
    if e.s.ops[c.h].flavour != FlUnprot {
      yielded := DrainPending(e, c);
      if yielded {
        return;
      }
    } else {
      UnprotOwnsNothing(e.s, c.h);
    }
    ghost var empty := e.s;
    ClearMarks(e, c.h);
    ReleasedBy(old(e.s), quiet, empty, e.s, c.h);
  }

  // One call of an unmap command on a leaf table: sweep, then the deferred work as far as interrupts
  // allow.  An error leaves everything as it was.
  method RunUnmap(e: Engine, h: nat, t: Path, flavour: Flavour, start: nat, limit: nat, single: bool, max: nat,
                  tracking: seq<Tracking>)
    returns (reply: Reply, c: UnmapCtx)
    requires e.Valid() && h !in e.s.ops && t in e.s.tbl && Unlocked(e.s, t) && |t| < e.s.levels
    requires start < ENTRIES && |tracking| == ENTRIES && max > 0
    modifies e
    ensures e.Valid() && c.h == h && c.list.size == Span(old(e.s).levels - |t| - 1)
    ensures e.irqs == old(e.irqs) + if reply.Incomplete? then 1 else 0
    ensures var req := Request(flavour, start, limit, single, max, tracking);
            (reply.Failed? <==> StopsAt(old(e.s), t, req, start)) && (!reply.Failed? ==> Reaches(old(e.s), t, req, reply.end))
    ensures reply.Failed? ==> e.s == old(e.s)
    ensures reply.Done? ==>
              && start < reply.end <= ENTRIES && reply.end <= limit
              && UnmappedRange(old(e.s), e.s, flavour, t, start, reply.end, c.list.size)
              && multiset(c.list.Contents()) == multiset(Freed(old(e.s).leaf, t, start, reply.end))
              && (single ==> |c.list.ranges| <= 1)
    ensures reply.Incomplete? ==>
              && start < reply.end <= ENTRIES && reply.end <= limit
              && c.Resumable(e.s) && e.s.ops[h].swept == LiveSlots(old(e.s).leaf, t, start, reply.end)
              && multiset(c.list.Contents()) == multiset(Freed(old(e.s).leaf, t, start, reply.end))
  {
    hide *;
    var list := new AddrList.List(max, Span(e.s.levels - |t| - 1));
    c := new UnmapCtx(h, list);
    OpenIs(e.s, h, t, flavour);
    e.Do(Unmap(Open(h, t, flavour)));
    e.Sound();
    ghost var begun := e.s;
    var error, end := SweepTable(e, h, t, start, limit, single, tracking, list);
    ghost var req := Request(flavour, start, limit, single, max, tracking);
    StopsSame(old(e.s), begun, t, req, start);
    if error {
      CloseIs(e.s, h);
      e.Do(Unmap(Close(h)));
      return Failed, c;
    }
    ReachesSame(old(e.s), begun, t, req, end);
    ghost var swept, found := e.s, list.ranges;
    e.Sound();
    list.ContentsIs();
    SweepFacts(begun, e.s, found, list.size, h, t, start, end, single);
    if flavour != FlUnprot {
      list.SortByAddr();
      list.ContentsIs();
      QueueIs(begun, e.s, found, list.ranges, list.size, h, t, start, end, single);
    }
    c.Links(e.s);
    var yielded := DrainAndClear(e, c);
    if yielded {
      return Incomplete(end), c;
    }
    SweepReleased(begun, swept, e.s, found, list.size, h, t, start, end, single);
    CloseIs(e.s, h);
    e.Do(Unmap(Close(h)));
    return Done(end), c;
  }

  // A sweep that stamps nothing queues nothing, and an interrupt before the first entry makes the command yield in the
  // state in which it began: an operation to be continued, with an empty list.
  lemma EmptySweepYields(s: St, c: UnmapCtx, t: Path, flavour: Flavour)
    requires c.h !in s.ops && Unlocked(s, t) && t in s.tbl
    requires c.list.Valid() && c.list.ranges == [] && c.desc == 0 && c.blk == 0 && c.pa == None
    ensures Enabled(s, Act.Unmap(Open(c.h, t, flavour))) && c.Resumable(Step(s, Act.Unmap(Open(c.h, t, flavour))))
    ensures Step(s, Act.Unmap(Open(c.h, t, flavour))).ops[c.h].swept == map[]
  {
    OpenIs(s, c.h, t, flavour);
    c.Links(Step(s, Act.Unmap(Open(c.h, t, flavour))));
  }

  // The continuation of an unmap that yielded.
  method ContinueUnmap(e: Engine, c: UnmapCtx) returns (yielded: bool)
    requires e.Valid() && c.Resumable(e.s)
    modifies e, c
    ensures e.Valid()
    ensures e.irqs == old(e.irqs) + if yielded then 1 else 0
    ensures yielded ==>
              && c.Resumable(e.s) && IsUnmap(e.s, c.h) && IsUnmap(old(e.s), c.h)
              && e.s.ops[c.h].swept == old(e.s.ops[c.h].swept)
    ensures !yielded ==> Finished(old(e.s), e.s, c.h)
  {
    hide Inv, AlignInv, Released, Finished, Left, Holds, Apart;
    yielded := DrainAndClear(e, c);
    if !yielded {
      ReleasedFinishes(old(e.s), e.s, c.h);
      CloseIs(e.s, c.h);
      e.Do(Unmap(Close(c.h)));
    }
  }
}
