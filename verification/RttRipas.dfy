/**
  * RTT_SET_RIPAS on the leaf table that the walk for its base address ended at.  Addresses are page
  * numbers counted from the first page the table maps.
  */
module RttRipas {
  import opened Basics
  import opened Stage2
  import opened Stage2Steps
  import opened Stage2Inv
  import opened Stage2Tree
  import opened Stage2Own
  import opened Stage2Theorems
  import opened Stage2Meaning
  import opened Stage2Engine
  import opened UnmapSweep

  predicate HasRipas(d: Desc) {
    d.Unassigned? || Backed(d)
  }

  // Two entries that differ in nothing but RIPAS and the memory attributes that go with it.
  predicate SameMapping(a: Desc, b: Desc) {
    match a
    case Unassigned(_, ap, m) => b.Unassigned? && b.ap == ap && b.mark == m
    case Assigned(_, pa, ap) => b.Assigned? && b.pa == pa && b.ap == ap
    case AssignedDev(_, pa, ap, _) => b.AssignedDev? && b.pa == pa && b.ap == ap
    case _ => a == b
  }

  // An entry may be given RIPAS `to` if it has a RIPAS and no operation owns it; RAM takes more: it is no device, and if
  // its content was destroyed the Realm has agreed.
  predicate Accepts(d: Desc, to: Ripas, destroyedToo: bool) {
    HasRipas(d) && !HasMark(d) && (to == Ram ==> !d.AssignedDev? && (d.ripas == Destroyed ==> destroyedToo))
  }

  lemma UpdateIff(d: Desc, to: Ripas, destroyedToo: bool)
    requires to == Empty || to == Ram
    ensures UpdateRipas(d, to, destroyedToo).Some? <==> Accepts(d, to, destroyedToo)
    ensures HasRipas(d) && d.ripas == to && UpdateRipas(d, to, destroyedToo).Some? ==> UpdateRipas(d, to, destroyedToo) == Some(d)
  {
  }

  // An accepted update gives the entry the requested RIPAS and leaves its output address alone.
  lemma UpdateExact(d: Desc, to: Ripas, destroyedToo: bool)
    requires UpdateRipas(d, to, destroyedToo).Some?
    ensures var r := UpdateRipas(d, to, destroyedToo).get;
            HasRipas(r) && r.ripas == to && SameMapping(d, r) && Settled(r)
  {
  }

  // What a slot says about RIPAS holds for every page below it, whose output page is the slot's plus the
  // offset of the page.
  lemma SlotSpeaksForPages(s: St, q: Path, ipa: Path)
    requires TreeInv(s.levels, s.leaf, s.tbl) && IsIpa(s.levels, ipa) && |q| <= s.levels && ipa[..|q|] == q && q in s.leaf
    ensures HasRipas(Body(s.leaf[q].d)) ==> HasRipas(Meaning(s, ipa)) && Meaning(s, ipa).ripas == Body(s.leaf[q].d).ripas
    ensures Backed(Body(s.leaf[q].d)) ==>
              Backed(Meaning(s, ipa)) && Meaning(s, ipa).pa == Body(s.leaf[q].d).pa + Offset(ipa[|q|..])
  {
    MeaningAt(s, ipa, |q|);
    DescendOffset(Body(s.leaf[q].d), ipa[|q|..]);
  }

  // The first page of slot i, and the slot of a page, in a table whose slots map n pages each.
  function StartOf(i: nat, n: nat): (p: nat) {
    i * n
  }

  function SlotNo(page: nat, n: nat): (i: nat)
    requires n > 0
  {
    page / n
  }

  lemma StartNext(i: nat, n: nat)
    ensures StartOf(i + 1, n) == StartOf(i, n) + n
  {
  }

  lemma StartLe(i: nat, j: nat, n: nat)
    requires i <= j
    ensures StartOf(i, n) <= StartOf(j, n)
  {
    MulLe(i, j, n);
  }

  lemma SlotOfPage(page: nat, n: nat)
    requires n > 0
    ensures StartOf(SlotNo(page, n), n) <= page < StartOf(SlotNo(page, n) + 1, n)
  {
    assert page == n * (page / n) + page % n;
    assert (page / n + 1) * n == n * (page / n) + n;
  }

  lemma InSlot(page: nat, n: nat, i: nat)
    requires n > 0 && StartOf(i, n) <= page < StartOf(i + 1, n)
    ensures SlotNo(page, n) == i
  {
    assert (i + 1) * n == n * i + n;
    QuotientIs(page, n, i);
  }

  // A page between the starts of slots i and j lies in one of the slots from i up to j.
  lemma SlotBetween(page: nat, n: nat, i: nat, j: nat)
    requires n > 0 && StartOf(i, n) <= page < StartOf(j, n)
    ensures i <= SlotNo(page, n) < j
  {
    hide StartOf, SlotNo;
    SlotOfPage(page, n);
    var k := SlotNo(page, n);
    if k < i {
      StartLe(k + 1, i, n);
    } else if j <= k {
      StartLe(j, k, n);
    }
  }

  predicate RipasIs(s: St, t: Path, n: nat, page: nat, to: Ripas)
    requires n > 0
  {
    var q := Kid(t, SlotNo(page, n));
    q in s.leaf && HasRipas(s.leaf[q].d) && s.leaf[q].d.ripas == to
  }

  // Slots i up to j of table t have been given RIPAS `to`; nothing else has changed but what is cached.
  ghost predicate RipasSet(s0: St, s: St, t: Path, i: nat, j: nat, to: Ripas) {
    && s == s0.(leaf := s.leaf, tlb := s.tlb) && s.leaf.Keys == s0.leaf.Keys
    && (forall k :: i <= k < j ==> Kid(t, k) in s0.leaf)
    && (forall x :: x in s0.leaf ==> SameMapping(s0.leaf[x].d, s.leaf[x].d) && s.leaf[x].owes == s0.leaf[x].owes)
    && (forall x :: x in s0.leaf && !Among(x, t, i, j) ==> s.leaf[x] == s0.leaf[x])
    && (forall x :: x in s0.leaf && Among(x, t, i, j) ==> HasRipas(s.leaf[x].d) && s.leaf[x].d.ripas == to)
  }

  lemma RipasSetNone(s: St, t: Path, i: nat, to: Ripas)
    ensures RipasSet(s, s, t, i, i, to)
  {
  }

  lemma RipasSetNext(s0: St, s: St, r: St, t: Path, i: nat, j: nat, to: Ripas, destroyedToo: bool)
    requires RipasSet(s0, s, t, i, j, to) && i <= j && Kid(t, j) in s.leaf && !s.leaf[Kid(t, j)].owes
    requires UpdateRipas(s.leaf[Kid(t, j)].d, to, destroyedToo).Some?
    requires r == s.(leaf := s.leaf[Kid(t, j) := Leaf(UpdateRipas(s.leaf[Kid(t, j)].d, to, destroyedToo).get, false)],
                     tlb := r.tlb)
    ensures RipasSet(s0, r, t, i, j + 1, to)
  {
    var q := Kid(t, j);
    KidOf(t, j);
    UpdateExact(s.leaf[q].d, to, destroyedToo);
    forall x ensures Among(x, t, i, j + 1) <==> Among(x, t, i, j) || x == q { AmongNext(x, t, i, j); }
  }

  // Slots not yet reached are as they were.
  lemma RipasAhead(s0: St, s: St, t: Path, i: nat, j: nat, to: Ripas)
    requires RipasSet(s0, s, t, i, j, to)
    ensures Kid(t, j) in s.leaf <==> Kid(t, j) in s0.leaf
    ensures Kid(t, j) in s.leaf ==> s.leaf[Kid(t, j)] == s0.leaf[Kid(t, j)]
  {
    KidOf(t, j);
  }

  // The pages of the slots that were set.
  lemma PagesSet(s0: St, s: St, t: Path, i: nat, j: nat, to: Ripas, n: nat, page: nat)
    requires RipasSet(s0, s, t, i, j, to) && n > 0 && StartOf(i, n) <= page < StartOf(j, n)
    ensures RipasIs(s, t, n, page, to)
  {
    hide StartOf, SlotNo;
    SlotBetween(page, n, i, j);
    KidOf(t, SlotNo(page, n));
  }

  // The write of one slot and the invalidation that follows it under the lock, with walkers in between.
  method UpdateSlot(e: Engine, q: Path, to: Ripas, destroyedToo: bool)
    requires e.Valid() && Idle(e.s, q) && UpdateRipas(e.s.leaf[q].d, to, destroyedToo).Some?
    modifies e
    ensures e.Valid()
    ensures e.s == old(e.s).(leaf := old(e.s).leaf[q := Leaf(UpdateRipas(old(e.s).leaf[q].d, to, destroyedToo).get, false)],
                             tlb := e.s.tlb)
  {
    hide Inv, AlignInv;
    SetRipasIs(e.s, q, to, destroyedToo);
    e.Do(Tree(SetRipas(q, to, destroyedToo)));
    e.Walk();
    if e.s.leaf[q].owes {
      e.Do(Tree(Invalidate(q)));
    }
  }

  lemma SetRipasIs(s: St, q: Path, to: Ripas, destroyedToo: bool)
    requires TreeEnabled(s, SetRipas(q, to, destroyedToo))
    ensures TreeStep(s, SetRipas(q, to, destroyedToo)).tbl == s.tbl
  {
  }

  // ---------------------------------------------------------------- how far a request gets

  // Slot k reaches past the requested range, is a table, or may not be given the RIPAS.
  predicate HaltsAt(s: St, t: Path, n: nat, top: nat, to: Ripas, destroyedToo: bool, k: nat) {
    var q := Kid(t, k);
    StartOf(k + 1, n) > top || q !in s.leaf || !Accepts(s.leaf[q].d, to, destroyedToo)
  }

  // The range ends inside slot k, which has the RIPAS already.
  predicate EndsWithin(s: St, t: Path, n: nat, top: nat, to: Ripas, k: nat) {
    var q := Kid(t, k);
    StartOf(k, n) < top < StartOf(k + 1, n) && q in s.leaf && HasRipas(s.leaf[q].d) && s.leaf[q].d.ripas == to
  }

  // The slots from `first` up to j, and no more, can be set.
  ghost predicate SetsUpTo(s: St, t: Path, n: nat, first: nat, top: nat, to: Ripas, destroyedToo: bool, j: nat) {
    && first <= j <= ENTRIES && (forall k :: first <= k < j ==> !HaltsAt(s, t, n, top, to, destroyedToo, k))
    && (j == ENTRIES || HaltsAt(s, t, n, top, to, destroyedToo, j))
  }

  // The answer to a request from slot `first` on: everything before the first slot that stops it, and the rest of the
  // range if it ends within a slot that needs no change; an error if that is nothing.
  ghost predicate Answers(s: St, t: Path, n: nat, first: nat, top: nat, to: Ripas, destroyedToo: bool, ok: bool, out: nat) {
    exists j: nat :: SetsUpTo(s, t, n, first, top, to, destroyedToo, j) &&
                var partial := j < ENTRIES && EndsWithin(s, t, n, top, to, j);
                (ok <==> j > first || partial) && (ok ==> out == if partial then top else StartOf(j, n))
  }

  predicate Revives(d: Desc, r: Desc) {
    HasRipas(d) && d.ripas == Destroyed && HasRipas(r) && r.ripas == Ram
  }

  // Content that was destroyed becomes RAM only if the Realm has agreed.
  predicate Agreed(s0: St, s: St, destroyedToo: bool) {
    forall x :: x in s0.leaf && x in s.leaf && Revives(s0.leaf[x].d, s.leaf[x].d) ==> destroyedToo
  }

  lemma AgreedWhenSet(s0: St, s: St, t: Path, n: nat, i: nat, j: nat, top: nat, to: Ripas, destroyedToo: bool)
    requires RipasSet(s0, s, t, i, j, to) && forall k :: i <= k < j ==> !HaltsAt(s0, t, n, top, to, destroyedToo, k)
    ensures Agreed(s0, s, destroyedToo)
  {
    hide StartOf;
    forall x | x in s0.leaf && x in s.leaf && Revives(s0.leaf[x].d, s.leaf[x].d)
      ensures destroyedToo
    {
      assert Among(x, t, i, j);
      OfParent(x);
      assert !HaltsAt(s0, t, n, top, to, destroyedToo, Last(x));
    }
  }

  // The aligned case: whole slots from `base` on are updated; a last slot that reaches beyond `top` counts
  // as done when it has the requested RIPAS already.
  method SetRange(e: Engine, t: Path, first: nat, top: nat, to: Ripas, destroyedToo: bool) returns (ok: bool, out: nat)
    requires e.Valid() && t in e.s.tbl && |t| < e.s.levels && Unlocked(e.s, t)
    requires first < ENTRIES && StartOf(first, Span(e.s.levels - |t| - 1)) < top && (to == Empty || to == Ram)
    modifies e
    ensures e.Valid()
    ensures Answers(old(e.s), t, Span(old(e.s).levels - |t| - 1), first, top, to, destroyedToo, ok, out)
    ensures !ok ==> e.s == old(e.s)
    ensures ok ==> RangeDone(old(e.s), e.s, t, StartOf(first, Span(old(e.s).levels - |t| - 1)), top, to, out)
    ensures Agreed(old(e.s), e.s, destroyedToo)
  {
    hide Inv, AlignInv, RipasSet, Unlocked, RangeDone, StartOf, Accepts, UpdateRipas, Agreed, Span;
    var n := Span(e.s.levels - |t| - 1);
    var i := first;
    RipasSetNone(e.s, t, first, to);
    ghost var s0 := e.s;
    out := StartOf(first, n);
    while i < ENTRIES
      invariant first <= i <= ENTRIES && out == StartOf(i, n) <= top
      invariant e.Valid() && RipasSet(s0, e.s, t, first, i, to)
      invariant i == first ==> e.s == s0
      invariant forall k :: first <= k < i ==> !HaltsAt(s0, t, n, top, to, destroyedToo, k)
    {
      RipasAhead(s0, e.s, t, first, i, to);
      StartNext(i, n);
      AgreedWhenSet(s0, e.s, t, n, first, i, top, to, destroyedToo);
      var q := Kid(t, i);
      if out + n > top {
        if q in e.s.leaf && HasRipas(e.s.leaf[q].d) && e.s.leaf[q].d.ripas == to && out < top {
          PartialDone(s0, e.s, t, first, i, to, n, top);
          assert SetsUpTo(s0, t, n, first, top, to, destroyedToo, i) && EndsWithin(s0, t, n, top, to, i);
          return true, top;
        }
        break;
      }
      if q in e.s.leaf {
        UpdateIff(e.s.leaf[q].d, to, destroyedToo);
      }
      if q !in e.s.leaf || UpdateRipas(e.s.leaf[q].d, to, destroyedToo).None? {
        break;
      }
      AcceptedIdle(s0, e.s, t, first, i, to, destroyedToo);
      ghost var before := e.s;
      UpdateSlot(e, q, to, destroyedToo);
      RipasSetNext(s0, before, e.s, t, first, i, to, destroyedToo);
      i := i + 1;
      out := out + n;
    }
    ok := i > first;
    assert SetsUpTo(s0, t, n, first, top, to, destroyedToo, i) && (i < ENTRIES ==> !EndsWithin(s0, t, n, top, to, i));
    AgreedWhenSet(s0, e.s, t, n, first, i, top, to, destroyedToo);
    if ok {
      StartNext(first, n);
      StartLe(first + 1, i, n);
      WholeDone(s0, e.s, t, first, i, to, n, top);
    }
  }

  lemma AcceptedIdle(s0: St, s: St, t: Path, i: nat, j: nat, to: Ripas, destroyedToo: bool)
    requires Inv(s) && Unlocked(s0, t) && RipasSet(s0, s, t, i, j, to) && j < ENTRIES
    requires Kid(t, j) in s.leaf && Accepts(s.leaf[Kid(t, j)].d, to, destroyedToo)
    ensures Idle(s, Kid(t, j))
  {
    RipasAhead(s0, s, t, i, j, to);
  }

  // What SUCCESS with `out` promises: progress within the request, the requested RIPAS on every page before
  // `out`, and no change to a slot that is not wholly within it, nor to any output address.
  ghost predicate RangeDone(s0: St, s: St, t: Path, base: nat, top: nat, to: Ripas, out: nat) {
    && |t| < s0.levels
    && var n := Span(s0.levels - |t| - 1);
    && base < out <= top
    && (forall page :: base <= page < out ==> RipasIs(s, t, n, page, to))
    && s == s0.(leaf := s.leaf, tlb := s.tlb) && s.leaf.Keys == s0.leaf.Keys
    && (forall x :: x in s0.leaf ==> SameMapping(s0.leaf[x].d, s.leaf[x].d))
    && (forall x :: x in s0.leaf && s.leaf[x] != s0.leaf[x] ==> SlotWithin(x, t, n, base, out))
  }

  predicate SlotWithin(x: Path, t: Path, n: nat, base: nat, out: nat) {
    x != [] && Parent(x) == t && base <= StartOf(Last(x), n) && StartOf(Last(x) + 1, n) <= out
  }

  // A range set slot by slot changes nothing but the RIPAS of its slots.
  lemma RipasFrame(s0: St, s: St, t: Path, i: nat, j: nat, to: Ripas)
    requires RipasSet(s0, s, t, i, j, to)
    ensures s == s0.(leaf := s.leaf, tlb := s.tlb) && s.leaf.Keys == s0.leaf.Keys
    ensures forall x :: x in s0.leaf ==> SameMapping(s0.leaf[x].d, s.leaf[x].d)
  {
    hide SameMapping, Among;
  }

  lemma WholeDone(s0: St, s: St, t: Path, i: nat, j: nat, to: Ripas, n: nat, top: nat)
    requires RipasSet(s0, s, t, i, j, to) && i < j && |t| < s0.levels && n == Span(s0.levels - |t| - 1)
    requires StartOf(i, n) < StartOf(j, n) <= top
    ensures RangeDone(s0, s, t, StartOf(i, n), top, to, StartOf(j, n))
  {
    hide StartOf, SlotNo, Span, RipasIs, SlotWithin, Among, SameMapping, RipasSet;
    RipasFrame(s0, s, t, i, j, to);
    forall page | StartOf(i, n) <= page < StartOf(j, n)
      ensures RipasIs(s, t, n, page, to)
    {
      PagesSet(s0, s, t, i, j, to, n, page);
    }
    ChangedInside(s0, s, t, i, j, to, n, StartOf(j, n));
  }

  lemma ChangedInside(s0: St, s: St, t: Path, i: nat, j: nat, to: Ripas, n: nat, out: nat)
    requires RipasSet(s0, s, t, i, j, to) && StartOf(j, n) <= out
    ensures forall x :: x in s0.leaf && s.leaf[x] != s0.leaf[x] ==> SlotWithin(x, t, n, StartOf(i, n), out)
  {
    hide StartOf;
    forall x | x in s0.leaf && s.leaf[x] != s0.leaf[x]
      ensures SlotWithin(x, t, n, StartOf(i, n), out)
    {
      assert Among(x, t, i, j);
      StartLe(i, Last(x), n);
      StartLe(Last(x) + 1, j, n);
    }
  }

  lemma PartialDone(s0: St, s: St, t: Path, i: nat, j: nat, to: Ripas, n: nat, top: nat)
    requires RipasSet(s0, s, t, i, j, to) && i <= j && |t| < s0.levels && n == Span(s0.levels - |t| - 1)
    requires StartOf(j, n) < top < StartOf(j, n) + n
    requires Kid(t, j) in s.leaf && HasRipas(s.leaf[Kid(t, j)].d) && s.leaf[Kid(t, j)].d.ripas == to
    ensures RangeDone(s0, s, t, StartOf(i, n), top, to, top)
  {
    hide StartOf, SlotNo, Span, RipasIs, SlotWithin, Among;
    StartLe(i, j, n);
    forall page | StartOf(i, n) <= page < top
      ensures RipasIs(s, t, n, page, to)
    {
      if page < StartOf(j, n) {
        PagesSet(s0, s, t, i, j, to, n, page);
      } else {
        LastSlotPage(s, t, j, to, n, page);
      }
    }
    ChangedInside(s0, s, t, i, j, to, n, top);
  }

  lemma LastSlotPage(s: St, t: Path, j: nat, to: Ripas, n: nat, page: nat)
    requires n > 0 && StartOf(j, n) <= page < StartOf(j, n) + n
    requires Kid(t, j) in s.leaf && HasRipas(s.leaf[Kid(t, j)].d) && s.leaf[Kid(t, j)].d.ripas == to
    ensures RipasIs(s, t, n, page, to)
  {
    StartNext(j, n);
    InSlot(page, n, j);
  }

  // RTT_SET_RIPAS for pages `base` up to `top`.  A base that is not aligned to the slot is accepted only when
  // the slot has the requested RIPAS already, and then nothing is changed.
  method SetRipasCommand(e: Engine, t: Path, base: nat, top: nat, to: Ripas, destroyedToo: bool) returns (ok: bool, out: nat)
    requires e.Valid() && t in e.s.tbl && |t| < e.s.levels && Unlocked(e.s, t)
    requires base < top && base < StartOf(ENTRIES, Span(e.s.levels - |t| - 1)) && (to == Empty || to == Ram)
    modifies e
    ensures e.Valid()
    ensures var n := Span(old(e.s).levels - |t| - 1);
            var i := SlotNo(base, n);
            if base == StartOf(i, n) then Answers(old(e.s), t, n, i, top, to, destroyedToo, ok, out)
            else
              && (ok <==> RipasIs(old(e.s), t, n, base, to))
              && (ok ==> out == if top < StartOf(i + 1, n) then top else StartOf(i + 1, n))
    ensures !ok ==> e.s == old(e.s)
    ensures ok ==> RangeDone(old(e.s), e.s, t, base, top, to, out)
    ensures Agreed(old(e.s), e.s, destroyedToo)
  {
    hide Inv, AlignInv, Unlocked, RangeDone, StartOf, SlotNo, Answers;
    var n := Span(e.s.levels - |t| - 1);
    var i := SlotNo(base, n);
    SlotOfPage(base, n);
    StartLe(0, i, n);
    StartZero(n);
    SlotBetween(base, n, 0, ENTRIES);
    if base == StartOf(i, n) {
      ok, out := SetRange(e, t, i, top, to, destroyedToo);
    } else {
      var q := Kid(t, i);
      ok := q in e.s.leaf && HasRipas(e.s.leaf[q].d) && e.s.leaf[q].d.ripas == to;
      out := if top < StartOf(i + 1, n) then top else StartOf(i + 1, n);
      if ok {
        UnalignedDone(e.s, t, base, top, to, n, out);
      }
    }
  }

  lemma StartZero(n: nat)
    ensures StartOf(0, n) == 0
  {
  }

  lemma UnalignedDone(s: St, t: Path, base: nat, top: nat, to: Ripas, n: nat, out: nat)
    requires |t| < s.levels && n == Span(s.levels - |t| - 1) && base < out <= top
    requires RipasIs(s, t, n, base, to) && out <= StartOf(SlotNo(base, n) + 1, n)
    ensures RangeDone(s, s, t, base, top, to, out)
  {
    hide StartOf, SlotNo, SlotWithin;
    SlotOfPage(base, n);
    forall page | base <= page < out
      ensures RipasIs(s, t, n, page, to)
    {
      InSlot(page, n, SlotNo(base, n));
    }
  }
}
