/**
  * What the invalidation pass of an unmap operation may change.
  */
module UnmapInvalidate {
  import opened Stage2
  import opened Stage2Steps
  import opened Stage2Inv
  import opened Stage2Tree
  import opened Stage2Own
  import opened Stage2Ops
  import opened Stage2Tlb
  import opened Stage2Theorems

  predicate OwesTlbi(s: St, h: nat, q: Path) {
    q in s.leaf && MarkedBy(s.leaf[q].d, h) && s.leaf[q].d.mark.tlbi
  }

  // What the invalidation pass of h may change: the tlbi bits of its slots, its own progress and what
  // is cached.
  ghost predicate Quieted(s0: St, s: St, h: nat) {
    && IsUnmap(s0, h) && IsUnmap(s, h)
    && s == s0.(leaf := s.leaf, ops := s.ops, tlb := s.tlb)
    && s.ops == s0.ops[h := s0.ops[h].(sync := s.ops[h].sync, draining := s.ops[h].draining)]
    && s.leaf.Keys == s0.leaf.Keys
    && forall x :: x in s0.leaf ==>
         s.leaf[x] == s0.leaf[x] || (OwesTlbi(s0, h, x) && s.leaf[x] == Leaf(SetMark(s0.leaf[x].d, Marked(h, false)), false))
  }

  predicate SameWork(s0: St, s: St, h: nat) {
    && IsUnmap(s0, h) && IsUnmap(s, h)
    && s.ops[h].table == s0.ops[h].table && s.ops[h].draining == s0.ops[h].draining
  }

  lemma QuietedTrans(s0: St, s1: St, s2: St, h: nat)
    requires Quieted(s0, s1, h) && Quieted(s1, s2, h)
    ensures Quieted(s0, s2, h)
  {
  }

  lemma QuietedSelf(s: St, h: nat)
    requires IsUnmap(s, h)
    ensures Quieted(s, s, h)
  {
  }

  // Hardware walks change nothing but what is cached.
  lemma WalkQuiet(s0: St, s: St, s': St, h: nat)
    requires Quieted(s0, s, h) && s' == s.(tlb := s'.tlb)
    ensures Quieted(s0, s', h)
  {
  }

  // No slot below i still owes an invalidation to h.
  ghost predicate Scanned(s: St, h: nat, t: Path, i: nat) {
    forall k :: 0 <= k < i ==> !OwesTlbi(s, h, Kid(t, k))
  }

  lemma ScannedNone(s: St, h: nat, t: Path)
    ensures Scanned(s, h, t, 0)
  {
  }

  lemma ScannedNext(s: St, h: nat, t: Path, i: nat)
    requires Scanned(s, h, t, i) && !OwesTlbi(s, h, Kid(t, i))
    ensures Scanned(s, h, t, i + 1)
  {
  }

  lemma ScannedKept(s0: St, s: St, h: nat, t: Path, i: nat)
    requires Scanned(s0, h, t, i) && Quieted(s0, s, h)
    ensures Scanned(s, h, t, i)
  {
  }

  // Once every slot of the table has been scanned the drain may start.
  lemma ScanComplete(s: St, h: nat)
    requires Inv(s) && IsUnmap(s, h) && s.ops[h].sync.NoSync? && !s.ops[h].draining
    requires Scanned(s, h, s.ops[h].table, ENTRIES)
    ensures UnmapEnabled(s, DrainStart(h))
  {
    assert OpOk(s, h);
    forall q | q in s.ops[h].swept
      ensures OwnsSlot(s, h, q) && !s.leaf[q].d.mark.tlbi
    {
      assert SweptOk(s, h, q);
      OfParent(q);
    }
  }

  lemma MarkedIsSwept(s: St, h: nat, q: Path)
    requires Inv(s) && IsUnmap(s, h) && OwesTlbi(s, h, q)
    ensures OwnsSlot(s, h, q) && !s.ops[h].draining
  {
    MapMark(s, h, q);
    assert OpOk(s, h) && SweptOk(s, h, q);
  }

  // The slot of an outstanding invalidation carries the marker of the operation.
  lemma SyncOwns(s: St, h: nat)
    requires Inv(s) && IsUnmap(s, h) && !s.ops[h].sync.NoSync?
    ensures OwnsSlot(s, h, s.ops[h].sync.at) && OwesTlbi(s, h, s.ops[h].sync.at) && !s.ops[h].draining
  {
    assert OpOk(s, h) && SweptOk(s, h, s.ops[h].sync.at);
  }

  lemma IssueQuiet(s: St, h: nat, q: Path)
    requires UnmapEnabled(s, TlbiIssue(h, q))
    ensures Quieted(s, UnmapStep(s, TlbiIssue(h, q)), h)
  {
  }

  lemma SyncQuiet(s: St, h: nat)
    requires UnmapEnabled(s, SyncDone(h))
    ensures Quieted(s, UnmapStep(s, SyncDone(h)), h)
  {
  }

  lemma ClearQuiet(s: St, h: nat)
    requires Inv(s) && UnmapEnabled(s, TlbiClear(h))
    ensures Quieted(s, UnmapStep(s, TlbiClear(h)), h)
    ensures !OwesTlbi(UnmapStep(s, TlbiClear(h)), h, s.ops[h].sync.at)
  {
    SyncOwns(s, h);
    var q := s.ops[h].sync.at;
    var r := UnmapStep(s, TlbiClear(h));
    assert r.tbl == s.tbl;
  }

  lemma StartQuiet(s: St, h: nat)
    requires UnmapEnabled(s, DrainStart(h))
    ensures Quieted(s, UnmapStep(s, DrainStart(h)), h)
  {
  }
}
