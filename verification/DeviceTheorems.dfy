/**
  * What holds of devices in every run.
  */
module DeviceTheorems {
  import opened VdevRanges
  import opened VdevSlots
  import opened PdevComm
  import opened Devices
  import opened DeviceProofs

  // ---------------------------------------------------------------- runs

  const BOOT := St(map[], map[], map[])

  ghost predicate Possible(s: St, acts: seq<Act>)
    decreases |acts|
  {
    acts == [] || (Enabled(s, acts[0]) && Possible(Step(s, acts[0]), acts[1..]))
  }

  ghost function After(s: St, acts: seq<Act>): (t: St)
    requires Possible(s, acts)
    decreases |acts|
  {
    if acts == [] then s else After(Step(s, acts[0]), acts[1..])
  }

  lemma {:induction false} InvAfter(s: St, acts: seq<Act>)
    requires Inv(s) && Possible(s, acts)
    ensures Inv(After(s, acts))
    decreases |acts|
  {
    hide Inv, Enabled, Step;
    if acts != [] {
      StepKeepsInv(s, acts[0]);
      InvAfter(Step(s, acts[0]), acts[1..]);
    }
  }

  lemma RunKeepsInv(acts: seq<Act>)
    requires Possible(BOOT, acts)
    ensures Inv(After(BOOT, acts))
  {
    assert Inv(BOOT);
    InvAfter(BOOT, acts);
  }

  // ---------------------------------------------------------------- counters and stopping

  // The counters of a PDEV are exact: the streams that name it, and its VDEVs, which are as many as its active
  // slots.
  lemma CountersExact(acts: seq<Act>, p: nat)
    requires Possible(BOOT, acts) && p in After(BOOT, acts).pdev
    ensures var t := After(BOOT, acts);
            var x := t.pdev[p];
            x.streams == |StreamsOf(t, p)| && x.num == |VdevsOf(t, p)| && x.num == ActiveCount(x.slots)
  {
    RunKeepsInv(acts);
    assert CountOk(After(BOOT, acts), p);
  }

  // A stopped PDEV is quiet: no stream names it, no VDEV is on it, no slot is active, the app is unwound. The same
  // holds while it stops, but for the app.
  lemma StoppedIsQuiet(acts: seq<Act>, p: nat)
    requires Possible(BOOT, acts) && p in After(BOOT, acts).pdev
    requires var x := After(BOOT, acts).pdev[p]; x.link.state == Stopped || x.link.op == Stop
    ensures var t := After(BOOT, acts);
            && StreamsOf(t, p) == {} && VdevsOf(t, p) == {} && ActiveCount(t.pdev[p].slots) == 0
            && (t.pdev[p].link.state == Stopped ==> !t.pdev[p].yielded && t.pdev[p].owner == Nobody)
            && (t.pdev[p].yielded ==> t.pdev[p].owner == ThePdev)
  {
    var t := After(BOOT, acts);
    RunKeepsInv(acts);
    assert CountOk(t, p) && StopOk(t.pdev[p]) && AppOk(t, p, t.pdev[p]);
    Unreferenced(t, p);
  }

  // No VDEV is created on a PDEV, and no stream connected to it, while it stops, although its state may still be
  // READY.
  lemma NothingJoinsWhileStopping(s: St, a: Act, p: nat)
    requires Inv(s) && Enabled(s, a) && p in s.pdev && s.pdev[p].link.op == Stop
    ensures !(a.VdevCreate? && a.p == p) && !(IsStreamAct(a) && (a.p == p || a.q == p))
  {
    hide Sorted, Clash, Covered, StreamInv, VdevInv;
    Unreferenced(s, p);
    assert LinkOk(s.pdev[p].link);
  }

  // Whatever a VDEV or a taken stream refers to exists: destroying a PDEV leaves nothing behind.
  lemma NothingDangles(acts: seq<Act>)
    requires Possible(BOOT, acts)
    ensures var t := After(BOOT, acts);
            && (forall v :: v in t.vdev ==> PlaceOk(t, t.vdev[v]))
            && (forall p :: p in t.pdev && t.pdev[p].stream.taken ==> t.pdev[p].stream.pd2 in t.pdev)
            && (forall p :: p in t.pdev && t.pdev[p].owner.TheVdev? ==>
                  t.pdev[p].owner.at in t.vdev && t.vdev[t.pdev[p].owner.at].pdev == p)
  {
    var t := After(BOOT, acts);
    RunKeepsInv(acts);
    forall p | p in t.pdev
      ensures StreamOk(t, p) && AppOk(t, p, t.pdev[p])
    {
    }
  }

  // What the commands take for granted holds.  The slot of a VDEV that is destroyed is active and the count of
  // its PDEV positive; a stream that is released is counted at both ends; the operation a VDEV communicates for
  // suits its state.
  lemma DestroyIsSound(s: St, v: nat)
    requires Inv(s) && v in s.vdev
    ensures PlaceOk(s, s.vdev[v]) && s.pdev[s.vdev[v].pdev].num > 0
  {
    VdevSound(s, v);
    HomeLive(s, v);
  }

  lemma ReleaseIsSound(s: St, p: nat, q: nat)
    requires Inv(s) && CanStream(s, p, q)
    ensures s.pdev[p].streams > 0 && s.pdev[q].streams > 0
  {
    StreamEndsLive(s, p, p);
    StreamEndsLive(s, q, p);
  }

  lemma CompletionIsSound(s: St, v: nat)
    requires Inv(s) && v in s.vdev && s.vdev[v].comm != Idle
    ensures var x := s.vdev[v];
            && x.op != NoVdevOp && (x.op == Init ==> x.state == VdevNew)
            && (x.op == Unlock ==> x.state == Locked || x.state == Started || x.state == VdevError)
            && (x.op == Lock ==> x.state == Unlocked) && (x.op == Start ==> x.state == Locked)
  {
    VdevSound(s, v);
  }

  // ---------------------------------------------------------------- slots

  // In every run no address belongs to two VDEVs of a PDEV.
  lemma VdevRangesDisjoint(acts: seq<Act>, v: nat, w: nat, x: nat)
    requires Possible(BOOT, acts)
    requires var t := After(BOOT, acts); v in t.vdev && w in t.vdev && v != w && t.vdev[v].pdev == t.vdev[w].pdev
    ensures var t := After(BOOT, acts);
            && PlaceOk(t, t.vdev[v]) && PlaceOk(t, t.vdev[w])
            && !(Covers(RangesOf(t, v), x) && Covers(RangesOf(t, w), x))
  {
    var t := After(BOOT, acts);
    RunKeepsInv(acts);
    VdevSound(t, v);
    VdevSound(t, w);
    assert Distinct(t.vdev[v], t.vdev[w]);
    assert SlotsOk(t.pdev[t.vdev[v].pdev]);
  }

  function RangesOf(s: St, v: nat): (rs: seq<Range>)
    requires v in s.vdev && PlaceOk(s, s.vdev[v])
  {
    s.pdev[s.vdev[v].pdev].slots[s.vdev[v].slot].ranges
  }

  // A PDEV with room for a VDEV has a free slot, and the other way round.
  lemma FreeSlotIff(acts: seq<Act>, p: nat)
    requires Possible(BOOT, acts) && p in After(BOOT, acts).pdev
    ensures var x := After(BOOT, acts).pdev[p];
            x.num < |x.slots| <==> exists i :: 0 <= i < |x.slots| && !x.slots[i].active
  {
    var x := After(BOOT, acts).pdev[p];
    RunKeepsInv(acts);
    assert SlotsOk(x);
    FullCount(x.slots);
  }

  // ---------------------------------------------------------------- freshness

  // A completed operation moves its own number forward: a lock starts the other two again, a measurement or a
  // report leaves the others alone, and nothing else moves any.
  predicate Advances(op: VdevOp, a: Freshness, b: Freshness) {
    match op
    case Lock => b.lock > a.lock && b.meas == 0 && b.report == 0
    case GetMeas => b.lock == a.lock && b.meas > a.meas && b.report == a.report
    case GetReport => b.lock == a.lock && b.meas == a.meas && b.report > a.report
    case _ => b == a
  }

  // What a command can do to a VDEV.
  predicate VdevMoves(x: Vdev, y: Vdev, last: nat, a: Act, v: nat) {
    || y == x
    || (a.VdevBegin? && a.v == v && y == x.(op := a.op, comm := Pending))
    || (a.VdevAbort? && a.v == v && y == x.(state := VdevError, comm := Idle))
    || (a.VdevTalk? && a.v == v && y == Talked(x, last, a.out, a.left))
  }

  lemma VdevAfter(s: St, a: Act, v: nat)
    requires VdevInv(s) && Enabled(s, a) && v in Step(s, a).vdev
    ensures v !in s.vdev ==> Step(s, a).vdev[v].seqs == Freshness(0, 0, 0)
    ensures v in s.vdev ==> s.vdev[v].realm in s.last && VdevMoves(s.vdev[v], Step(s, a).vdev[v], s.last[s.vdev[v].realm], a, v)
    ensures v in s.vdev && a.VdevTalk? && a.v == v ==> Busy(s.vdev[v].comm) && (a.out == Success ==> !a.left)
  {
    hide Sorted, Clash, Covered, PdevStep, StreamStep;
    assert v in s.vdev ==> SeqsOk(s, s.vdev[v]);
    if IsPdevAct(a) || IsStreamAct(a) {
      SameVdevs(s, a);
    }
  }

  lemma SameVdevs(s: St, a: Act)
    requires Enabled(s, a) && (IsPdevAct(a) || IsStreamAct(a))
    ensures Step(s, a).vdev == s.vdev
  {
    hide Sorted, Clash, Covered;
  }

  lemma LastAfter(s: St, a: Act, r: nat)
    requires Enabled(s, a) && r in s.last
    ensures r in Step(s, a).last && s.last[r] <= Step(s, a).last[r]
  {
  }

  // While a VDEV lives, its sequence numbers move exactly when a lock, a measurement or a report completes, and
  // then only forward.
  lemma FreshnessGrows(s: St, a: Act, v: nat)
    requires Inv(s) && Enabled(s, a) && v in s.vdev && v in Step(s, a).vdev
    ensures var x, y := s.vdev[v], Step(s, a).vdev[v];
            if a.VdevTalk? && a.v == v && a.out == Success then Advances(x.op, x.seqs, y.seqs) else y.seqs == x.seqs
  {
    hide PdevInv, StreamInv, VdevInv, Enabled, Step;
    VdevSound(s, v);
    VdevAfter(s, a, v);
    MovedTalk(s, a, v);
  }

  // An exchange moves the VDEV it is for.
  lemma MovedTalk(s: St, a: Act, v: nat)
    requires Enabled(s, a) && v in s.vdev && v in Step(s, a).vdev
    ensures a.VdevTalk? && a.v == v ==>
              s.vdev[v].realm in s.last && Step(s, a).vdev[v] == Talked(s.vdev[v], s.last[s.vdev[v].realm], a.out, a.left)
  {
  }

  // Checking for exhaustion first is enough: no sequence number overflows.
  lemma NoOverflow(acts: seq<Act>, v: nat)
    requires Possible(BOOT, acts) && v in After(BOOT, acts).vdev
    ensures var x := After(BOOT, acts).vdev[v].seqs; x.lock <= SEQ_MAX && x.meas <= SEQ_MAX && x.report <= SEQ_MAX
  {
    RunKeepsInv(acts);
    VdevSound(After(BOOT, acts), v);
  }

  // The step by which a lock of v completes.
  ghost predicate Locks(s: St, a: Act, v: nat) {
    v in s.vdev && s.vdev[v].op == Lock && a.VdevTalk? && a.v == v && a.out == Success && Enabled(s, a)
  }

  // A lock gives the VDEV the next number of its Realm, ahead of every VDEV there.
  lemma LockIsNext(s: St, a: Act, v: nat)
    requires Inv(s) && Locks(s, a, v)
    ensures v in s.vdev && s.vdev[v].realm in s.last && s.vdev[v].realm in Step(s, a).last && v in Step(s, a).vdev
    ensures Step(s, a).last[s.vdev[v].realm] == s.last[s.vdev[v].realm] + 1
    ensures Step(s, a).vdev[v].seqs == Freshness(s.last[s.vdev[v].realm] + 1, 0, 0)
    ensures forall w :: w in s.vdev && s.vdev[w].realm == s.vdev[v].realm ==> s.vdev[w].seqs.lock <= s.last[s.vdev[v].realm]
  {
    hide Inv, PdevInv, StreamInv, VdevInv;
    VdevSound(s, v);
    OthersBehind(s, v);
  }

  lemma {:induction false} LastGrows(s: St, acts: seq<Act>, r: nat)
    requires Possible(s, acts) && r in s.last
    ensures r in After(s, acts).last && s.last[r] <= After(s, acts).last[r]
    decreases |acts|
  {
    if acts != [] {
      LastGrows(Step(s, acts[0]), acts[1..], r);
    }
  }

  // No two locks in a Realm give the same number, whichever VDEVs they lock and however many of them are
  // destroyed and created again in between.
  lemma LocksDiffer(s: St, a: Act, v: nat, acts: seq<Act>, u: St, b: Act, w: nat)
    requires Locks(s, a, v) && Possible(Step(s, a), acts) && u == After(Step(s, a), acts) && Locks(u, b, w)
    requires u.vdev[w].realm == s.vdev[v].realm && Inv(s)
    ensures v in Step(s, a).vdev && w in Step(u, b).vdev && Step(s, a).vdev[v].seqs.lock < Step(u, b).vdev[w].seqs.lock
  {
    hide Inv, Enabled, Step;
    LockIsNext(s, a, v);
    StepKeepsInv(s, a);
    InvAfter(Step(s, a), acts);
    LastGrows(Step(s, a), acts, s.vdev[v].realm);
    LockIsNext(u, b, w);
  }

  // VDEV v is locked or started as identifier id of Realm r, with the given sequence numbers.
  predicate Holds(s: St, v: nat, r: nat, id: nat, f: Freshness) {
    v in s.vdev && s.vdev[v].realm == r && s.vdev[v].id == id && Armed(s.vdev[v]) && s.vdev[v].seqs == f
  }

  // The numbers are gone for good: whatever has the identifier is not locked at them and has moved past them.
  predicate Lost(s: St, r: nat, id: nat, f: Freshness) {
    && r in s.last && f.lock <= s.last[r]
    && forall v :: v in s.vdev && s.vdev[v].realm == r && s.vdev[v].id == id ==> Past(s.vdev[v], f)
  }

  predicate Past(x: Vdev, f: Freshness) {
    || x.seqs.lock == 0 || x.seqs.lock > f.lock
    || (x.seqs.lock == f.lock && (x.seqs.meas > f.meas || x.seqs.report > f.report || !Armed(x)))
  }

  lemma LostStays(s: St, a: Act, r: nat, id: nat, f: Freshness)
    requires Inv(s) && Enabled(s, a) && Lost(s, r, id, f)
    ensures Lost(Step(s, a), r, id, f)
  {
    hide PdevInv, StreamInv, VdevInv, Enabled, Step;
    var t := Step(s, a);
    LastAfter(s, a, r);
    forall v | v in t.vdev && t.vdev[v].realm == r && t.vdev[v].id == id
      ensures Past(t.vdev[v], f)
    {
      VdevAfter(s, a, v);
      if v in s.vdev {
        VdevSound(s, v);
        assert Past(s.vdev[v], f);
      }
    }
  }

  lemma HeldOrLost(s: St, a: Act, v: nat, r: nat, id: nat, f: Freshness)
    requires Inv(s) && Enabled(s, a) && Holds(s, v, r, id, f)
    ensures Holds(Step(s, a), v, r, id, f) || Lost(Step(s, a), r, id, f)
  {
    hide PdevInv, StreamInv, Enabled, Step;
    var t := Step(s, a);
    VdevSound(s, v);
    LastAfter(s, a, r);
    if !Holds(t, v, r, id, f) {
      forall w | w in t.vdev && t.vdev[w].realm == r && t.vdev[w].id == id
        ensures Past(t.vdev[w], f)
      {
        VdevAfter(s, a, w);
        assert w in s.vdev && w != v ==> Distinct(s.vdev[v], s.vdev[w]);
      }
    }
  }

  lemma {:induction false} LostForever(s: St, acts: seq<Act>, r: nat, id: nat, f: Freshness)
    requires Inv(s) && Possible(s, acts) && Lost(s, r, id, f)
    ensures Lost(After(s, acts), r, id, f)
    decreases |acts|
  {
    hide Inv, Enabled, Step, Lost;
    if acts != [] {
      LostStays(s, acts[0], r, id, f);
      StepKeepsInv(s, acts[0]);
      LostForever(Step(s, acts[0]), acts[1..], r, id, f);
    }
  }

  ghost predicate AllAlong(s: St, acts: seq<Act>, v: nat, r: nat, id: nat, f: Freshness)
    requires Possible(s, acts)
    decreases |acts|
  {
    Holds(s, v, r, id, f) && (acts != [] ==> AllAlong(Step(s, acts[0]), acts[1..], v, r, id, f))
  }

  // RTT_DEV_VALIDATE compares the numbers a Realm quotes with those of the VDEV it now finds under the same
  // identifier. If they agree and the VDEV is locked or started, it is the very VDEV they were read from, and in
  // between it was always locked or started with these numbers.
  lemma {:induction false} QuotedIsHeld(s: St, acts: seq<Act>, v: nat, w: nat)
    requires Possible(s, acts)
    requires Inv(s)
    requires v in s.vdev && Armed(s.vdev[v])
    requires Holds(After(s, acts), w, s.vdev[v].realm, s.vdev[v].id, s.vdev[v].seqs)
    ensures w == v && AllAlong(s, acts, v, s.vdev[v].realm, s.vdev[v].id, s.vdev[v].seqs)
    decreases |acts|
  {
    var r, id, f := s.vdev[v].realm, s.vdev[v].id, s.vdev[v].seqs;
    VdevSound(s, v);
    if acts == [] {
      assert w != v ==> Distinct(s.vdev[v], s.vdev[w]);
    } else {
      hide Inv, Enabled, Step, Lost;
      var t := Step(s, acts[0]);
      StepKeepsInv(s, acts[0]);
      HeldOrLost(s, acts[0], v, r, id, f);
      if Holds(t, v, r, id, f) {
        QuotedIsHeld(t, acts[1..], v, w);
      } else {
        LostForever(t, acts[1..], r, id, f);
        LostNotHeld(After(s, acts), w, r, id, f);
      }
    }
  }

  lemma LostNotHeld(s: St, w: nat, r: nat, id: nat, f: Freshness)
    requires Lost(s, r, id, f) && f.lock > 0
    ensures !Holds(s, w, r, id, f)
  {
    assert Holds(s, w, r, id, f) ==> Past(s.vdev[w], f);
  }
}
