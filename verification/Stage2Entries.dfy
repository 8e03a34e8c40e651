/**
  * What the commands that rewrite one entry make of the addresses below it.
  */
module Stage2Entries {
  import opened Basics
  import opened Stage2
  import opened Stage2Steps
  import opened Stage2Inv
  import opened Stage2Theorems
  import opened Stage2Meaning

  // Only the entry at q differs.
  predicate OnlyEntry(s: St, r: St, q: Path) {
    r.levels == s.levels && q in s.leaf && q in r.leaf && r.leaf == s.leaf[q := r.leaf[q]]
  }

  lemma EntryMeans(s: St, r: St, q: Path, ipa: Path)
    requires IsTree(s) && IsTree(r) && OnlyEntry(s, r, q) && |q| <= s.levels && IsIpa(s.levels, ipa)
    ensures Below(q, ipa) ==> Meaning(s, ipa) == Descend(Body(s.leaf[q].d), ipa[|q|..])
    ensures Below(q, ipa) ==> Meaning(r, ipa) == Descend(Body(r.leaf[q].d), ipa[|q|..])
    ensures !Below(q, ipa) ==> Meaning(r, ipa) == Meaning(s, ipa)
  {
    hide Meaning, Descend;
    if Below(q, ipa) {
      MeaningAt(s, ipa, |q|);
      MeaningAt(r, ipa, |q|);
    } else {
      assert ipa[..0] == [];
      var k := LeafDepth(s.levels, s.leaf, s.tbl, ipa, 0);
      assert ipa[..k] != q;
      MeaningAt(s, ipa, k);
      MeaningAt(r, ipa, k);
    }
  }

  // What the tables say about an address.
  ghost predicate Says(s: St, ipa: Path, m: Desc) {
    IsTree(s) && IsIpa(s.levels, ipa) && Meaning(s, ipa) == m
  }

  lemma StepIsTree(s: St, a: Act)
    requires Inv(s) && Enabled(s, a)
    ensures IsTree(s) && IsTree(Step(s, a))
  {
    StepKeepsInv(s, a);
  }

  // The meaning of an address after its entry was given permissions.
  predicate Permitted(m: Desc, n: Desc, ap: Ap) {
    match m
    case Unassigned(r, _, mark) => n == Unassigned(r, ap, mark)
    case Assigned(r, pa, _) => n == Assigned(r, pa, ap)
    case AssignedDev(r, pa, _, t) => n.AssignedDev? && n.ripas == r && n.pa == pa && n.attr == t && n.ap == Ap(ap.perm, false)
    case _ => false
  }

  // RTT_SET_S2AP changes the permissions of exactly the addresses below the entry, and nothing else about them; device
  // memory is never executable.
  lemma SetApMeans(s: St, q: Path, ap: Ap, ipa: Path) returns (m: Desc, n: Desc)
    requires Inv(s) && Enabled(s, Tree(SetAp(q, ap))) && IsIpa(s.levels, ipa)
    ensures Says(s, ipa, m) && Says(Step(s, Tree(SetAp(q, ap))), ipa, n)
    ensures if Below(q, ipa) then Permitted(m, n, ap) else n == m
  {
    hide Inv, Meaning, Descend, Offset;
    var r := Step(s, Tree(SetAp(q, ap)));
    StepIsTree(s, Tree(SetAp(q, ap)));
    EntryMeans(s, r, q, ipa);
    m, n := Meaning(s, ipa), Meaning(r, ipa);
    if Below(q, ipa) {
      DescendOffset(s.leaf[q].d, ipa[|q|..]);
      DescendOffset(r.leaf[q].d, ipa[|q|..]);
    }
  }

  // RTT_DEV_VALIDATE makes device memory that is EMPTY DEV, with the given attributes, for exactly the addresses below the
  // entry.
  lemma DevValidateMeans(s: St, q: Path, attr: nat, ipa: Path) returns (m: Desc, n: Desc)
    requires Inv(s) && Enabled(s, Tree(DevValidate(q, attr))) && IsIpa(s.levels, ipa)
    ensures Says(s, ipa, m) && Says(Step(s, Tree(DevValidate(q, attr))), ipa, n)
    ensures if Below(q, ipa) then m.AssignedDev? && m.ripas == Empty && n == m.(ripas := Dev, attr := attr) else n == m
  {
    hide Inv, Meaning, Descend, Offset;
    var r := Step(s, Tree(DevValidate(q, attr)));
    StepIsTree(s, Tree(DevValidate(q, attr)));
    EntryMeans(s, r, q, ipa);
    m, n := Meaning(s, ipa), Meaning(r, ipa);
    if Below(q, ipa) {
      DescendOffset(s.leaf[q].d, ipa[|q|..]);
      DescendOffset(r.leaf[q].d, ipa[|q|..]);
    }
  }

  // RTT_UNPROT_MAP maps exactly the addresses below the entry, one after the other, with the given attributes.
  lemma UnprotMapMeans(s: St, q: Path, pa: nat, attr: nat, ipa: Path) returns (m: Desc, n: Desc)
    requires Inv(s) && Enabled(s, Map(UnprotMap(q, pa, attr))) && IsIpa(s.levels, ipa)
    ensures Says(s, ipa, m) && Says(Step(s, Map(UnprotMap(q, pa, attr))), ipa, n)
    ensures if Below(q, ipa) then m == UnassignedNs(Unmarked) && n == AssignedNs(pa + Offset(ipa[|q|..]), attr) else n == m
  {
    hide Inv, Meaning, Descend, Offset;
    var r := Step(s, Map(UnprotMap(q, pa, attr)));
    StepIsTree(s, Map(UnprotMap(q, pa, attr)));
    EntryMeans(s, r, q, ipa);
    m, n := Meaning(s, ipa), Meaning(r, ipa);
    if Below(q, ipa) {
      DescendOffset(s.leaf[q].d, ipa[|q|..]);
      DescendOffset(r.leaf[q].d, ipa[|q|..]);
    }
  }

  // DATA_MAP_INIT makes one page RAM with the permissions it had, over the given page, which is DATA with the contents that
  // were copied there; no other address and no other page changes.
  lemma MapInitMeans(s: St, q: Path, pa: nat, ipa: Path) returns (m: Desc, n: Desc)
    requires Inv(s) && Enabled(s, Map(MapInit(q, pa))) && IsIpa(s.levels, ipa)
    ensures Says(s, ipa, m) && Says(Step(s, Map(MapInit(q, pa))), ipa, n)
    ensures if ipa == q then m.Unassigned? && n == Assigned(Ram, pa, m.ap) else n == m
    ensures Step(s, Map(MapInit(q, pa))).gran == s.gran[pa := Data] && Step(s, Map(MapInit(q, pa))).zero == s.zero - {pa}
  {
    hide Inv, Meaning, Descend, Offset;
    var r := Step(s, Map(MapInit(q, pa)));
    StepIsTree(s, Map(MapInit(q, pa)));
    EntryMeans(s, r, q, ipa);
    m, n := Meaning(s, ipa), Meaning(r, ipa);
    assert Below(q, ipa) <==> ipa == q;
    if Below(q, ipa) {
      assert ipa[|q|..] == [];
      DescendOffset(s.leaf[q].d, []);
      DescendOffset(r.leaf[q].d, []);
      NoOffset();
    }
  }

  lemma NoOffset()
    ensures Offset([]) == 0
  {
  }
}
