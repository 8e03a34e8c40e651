/**
  * The commands that map one entry at once, without deferred work.
  */
module RttEntries {
  import opened Stage2
  import opened Stage2Steps
  import opened Stage2Engine

  lemma UnprotIs(s: St, q: Path, pa: nat, attr: nat)
    requires Idle(s, q) && s.leaf[q].d.UnassignedNs? && s.levels - |q| <= BLOCK_HEIGHT && pa % Pages(s, q) == 0
    ensures Enabled(s, Map(UnprotMap(q, pa, attr)))
    ensures Step(s, Map(UnprotMap(q, pa, attr))) == s.(leaf := s.leaf[q := Leaf(AssignedNs(pa, attr), false)])
  {
    var t := Parent(q);
    assert s.tbl[t := s.tbl[t]] == s.tbl;
  }

  lemma Rewritten(s: St, q: Path)
    requires q in s.leaf
    ensures s.leaf[q := s.leaf[q]] == s.leaf
  {
  }

  // RTT_UNPROT_MAP of one entry: the entry maps the block afterwards if it was unassigned and nobody owned it, or if it did
  // so before; nothing else changes, and otherwise nothing at all.
  method MapUnprot(e: Engine, q: Path, pa: nat, attr: nat) returns (ok: bool)
    requires e.Valid() && Slot(e.s, q) && !e.s.leaf[q].owes && !e.s.leaf[q].d.Broken?
    requires e.s.levels - |q| <= BLOCK_HEIGHT && pa % Pages(e.s, q) == 0
    modifies e
    ensures e.Valid() && e.irqs == old(e.irqs)
    ensures var d := old(e.s).leaf[q].d; ok <==> d == UnassignedNs(Unmarked) || d == AssignedNs(pa, attr)
    ensures e.s == if ok then old(e.s).(leaf := old(e.s).leaf[q := Leaf(AssignedNs(pa, attr), false)]) else old(e.s)
  {
    var d := e.s.leaf[q].d;
    Rewritten(e.s, q);
    if HasMark(d) {
      return false;
    } else if !d.UnassignedNs? {
      return d == AssignedNs(pa, attr);
    }
    UnprotIs(e.s, q, pa, attr);
    e.Do(Map(UnprotMap(q, pa, attr)));
    return true;
  }

  datatype InitReply = Assigned | Owned | NotDelegated | NoSource | Installed

  lemma InitIs(s: St, q: Path, pa: nat)
    requires Idle(s, q) && s.leaf[q].d.Unassigned? && |q| == s.levels && Is(s, pa, Delegated)
    ensures Enabled(s, Map(MapInit(q, pa))) && Step(s, Map(MapInit(q, pa))) == MapInitStep(s, q, pa)
  {
  }

  // DATA_MAP_INIT: the page is mapped, as RAM and with the contents copied from the source, exactly when the entry is
  // unassigned and nobody owns it, the granule is DELEGATED and the source can be read; the replies tell these apart.
  method MapInitial(e: Engine, q: Path, pa: nat, readable: bool) returns (reply: InitReply)
    requires e.Valid() && Slot(e.s, q) && |q| == e.s.levels && !e.s.leaf[q].owes && !e.s.leaf[q].d.Broken?
    modifies e
    ensures e.Valid() && e.irqs == old(e.irqs)
    ensures var s, d := old(e.s), old(e.s).leaf[q].d;
            && (reply == InitReply.Assigned <==> !d.Unassigned?)
            && (reply == Owned <==> d.Unassigned? && d.mark.Marked?)
            && (reply == NotDelegated <==> d.Unassigned? && d.mark == Unmarked && !Is(s, pa, Delegated))
            && (reply == NoSource <==> d.Unassigned? && d.mark == Unmarked && Is(s, pa, Delegated) && !readable)
    ensures reply != Installed ==> e.s == old(e.s)
    ensures reply == Installed ==>
              && var s, t := old(e.s), Parent(q);
              e.s == s.(leaf := s.leaf[q := Leaf(Desc.Assigned(Ram, pa, s.leaf[q].d.ap), false)],
                        tbl := s.tbl[t := s.tbl[t].(rc := s.tbl[t].rc + 1)],
                        gran := s.gran[pa := Data], zero := s.zero - {pa})
  {
    var d := e.s.leaf[q].d;
    if !d.Unassigned? {
      return InitReply.Assigned;
    } else if d.mark.Marked? {
      return Owned;
    } else if !Is(e.s, pa, Delegated) {
      return NotDelegated;
    } else if !readable {
      return NoSource;
    }
    InitIs(e.s, q, pa);
    e.Do(Map(MapInit(q, pa)));
    return Installed;
  }
}
