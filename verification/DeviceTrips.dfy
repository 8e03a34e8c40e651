/**
  * Who has the app of a device, and devices that come and go.
  */
module DeviceTrips {
  import opened VdevRanges
  import opened VdevSlots
  import opened PdevComm
  import opened Devices
  import opened DeviceProofs
  import opened DeviceTheorems
  import opened DeviceStreams
  import opened DeviceVdevs

  // ---------------------------------------------------------------- the app

  // Who runs an exchange, or drops one, in the app of PDEV p.
  function Caller(s: St, a: Act, p: nat): (who: Owner) {
    match a
    case PdevTalk(q, _, _) => if q == p then ThePdev else Nobody
    case PdevAbort(q) => if q == p then ThePdev else Nobody
    case VdevTalk(v, _, _) => if v in s.vdev && s.vdev[v].pdev == p then TheVdev(v) else Nobody
    case VdevAbort(v) => if v in s.vdev && s.vdev[v].pdev == p then TheVdev(v) else Nobody
    case _ => Nobody
  }

  // Who is in the middle of an operation in the app of PDEV p afterwards: whoever left one open, nobody after an
  // operation ended or its owner dropped it, and otherwise whoever was before.
  function NextOwner(s: St, a: Act, p: nat, was: Owner): (who: Owner) {
    var caller := Caller(s, a, p);
    if caller == Nobody then was
    else if (a.PdevTalk? || a.VdevTalk?) && a.left then caller
    else if was == caller then Nobody else was
  }

  lemma PdevActApp(s: St, a: Act, p: nat)
    requires Inv(s) && Enabled(s, a) && IsPdevAct(a) && p in s.pdev && p in PdevStep(s, a).pdev
    ensures PdevStep(s, a).pdev[p].owner == NextOwner(s, a, p, s.pdev[p].owner)
    ensures a.PdevTalk? && a.p == p ==> s.pdev[p].owner in {Nobody, ThePdev}
  {
    hide Inv, Completed, Aborted, Legal;
    AppSound(s, p);
  }

  lemma AppSound(s: St, p: nat)
    requires Inv(s) && p in s.pdev
    ensures AppOk(s, p, s.pdev[p])
  {
  }

  lemma VdevActApp(s: St, a: Act, p: nat)
    requires Inv(s) && Enabled(s, a) && IsVdevAct(a) && p in s.pdev && p in VdevStep(s, a).pdev
    ensures VdevStep(s, a).pdev[p].owner == NextOwner(s, a, p, s.pdev[p].owner)
    ensures a.VdevTalk? && s.vdev[a.v].pdev == p ==> s.pdev[p].owner in {Nobody, TheVdev(a.v)}
  {
    hide Inv, Sorted, Clash, Covered, Talked, Exhausted, Legal, MayBegin;
    AppSound(s, p);
  }

  lemma OtherActApp(s: St, a: Act, p: nat)
    requires Enabled(s, a) && !IsPdevAct(a) && !IsVdevAct(a) && p in s.pdev && p in Step(s, a).pdev
    ensures Step(s, a).pdev[p].owner == s.pdev[p].owner
  {
    hide Releases;
  }

  // In every step, the app of a PDEV is with whoever left an operation open in it, and with nobody else: nobody runs an
  // exchange in the middle of the operation of another, and a dropped operation leaves the app free.
  lemma AppMoves(s: St, a: Act, p: nat)
    requires Inv(s) && Enabled(s, a) && p in s.pdev && p in Step(s, a).pdev
    ensures Step(s, a).pdev[p].owner == NextOwner(s, a, p, s.pdev[p].owner)
    ensures Step(s, a).pdev[p].yielded <==> Step(s, a).pdev[p].owner != Nobody
    ensures (a.PdevTalk? || a.VdevTalk?) && Caller(s, a, p) != Nobody ==> s.pdev[p].owner in {Nobody, Caller(s, a, p)}
  {
    hide Inv, Enabled, PdevStep, VdevStep, StreamStep, NextOwner;
    StepKeepsInv(s, a);
    AppSound(Step(s, a), p);
    if IsPdevAct(a) {
      PdevActApp(s, a, p);
    } else if IsVdevAct(a) {
      VdevActApp(s, a, p);
    } else {
      OtherActApp(s, a, p);
      NobodyCalls(s, a, p);
    }
  }

  lemma NobodyCalls(s: St, a: Act, p: nat)
    requires !IsPdevAct(a) && !IsVdevAct(a)
    ensures Caller(s, a, p) == Nobody && forall was :: NextOwner(s, a, p, was) == was
  {
  }

  // ---------------------------------------------------------------- a VDEV comes and goes

  // VDEV v as it is created in a slot.
  function Placed(s: St, a: Act): (t: St)
    requires a.VdevCreate? && a.p in s.pdev && a.slot < |s.pdev[a.p].slots|
  {
    var x := s.pdev[a.p];
    SetPdev(s, a.p, x.(slots := x.slots[a.slot := Slot(true, a.ranges)], num := x.num + 1))
      .(vdev := s.vdev[a.v := Vdev(a.realm, a.id, a.p, a.slot, VdevNew, Init, Pending, Freshness(0, 0, 0))])
  }

  lemma Places(s: St, a: Act)
    requires a.VdevCreate? && Enabled(s, a)
    ensures Step(s, a) == Placed(s, a)
  {
    hide Sorted, Clash, Covered;
  }

  lemma Unlocks(s: St, a: Act)
    requires a.VdevCreate? && Enabled(s, a) && !s.pdev[a.p].yielded && s.pdev[a.p].owner == Nobody
    ensures var t, talk := Placed(s, a), VdevTalk(a.v, Success, false);
            && Enabled(t, talk)
            && Step(t, talk) == t.(vdev := t.vdev[a.v := t.vdev[a.v].(state := Unlocked, op := NoVdevOp, comm := Idle)])
  {
    hide Sorted, Clash, Covered;
    var t := Placed(s, a);
    assert t.pdev[a.p := t.pdev[a.p]] == t.pdev;
  }

  lemma Departs(s: St, a: Act)
    requires a.VdevCreate? && Enabled(s, a) && !s.pdev[a.p].yielded && s.pdev[a.p].slots[a.slot] == FREE
    ensures var p := Placed(s, a);
            var t := p.(vdev := p.vdev[a.v := p.vdev[a.v].(state := Unlocked, op := NoVdevOp, comm := Idle)]);
            Enabled(t, VdevDestroy(a.v)) && Step(t, VdevDestroy(a.v)) == s
  {
    hide Sorted, Clash, Covered;
    var x := s.pdev[a.p];
    assert x.slots[a.slot := Slot(true, a.ranges)][a.slot := FREE] == x.slots;
    var p := Placed(s, a);
    var t := p.(vdev := p.vdev[a.v := p.vdev[a.v].(state := Unlocked, op := NoVdevOp, comm := Idle)]);
    assert Step(t, VdevDestroy(a.v)).pdev == s.pdev;
    assert Step(t, VdevDestroy(a.v)).vdev == s.vdev;
  }

  lemma ThreeActs(s: St, a: Act, b: Act, c: Act)
    requires Enabled(s, a) && Enabled(Step(s, a), b) && Enabled(Step(Step(s, a), b), c)
    ensures Possible(s, [a, b, c]) && After(s, [a, b, c]) == Step(Step(Step(s, a), b), c)
  {
    hide Enabled, Step, Possible, After;
    Idles(s);
    Then(s, [], a);
    Then(s, [] + [a], b);
    Then(s, [] + [a] + [b], c);
    assert [] + [a] + [b] + [c] == [a, b, c];
  }

  // A VDEV that is created, set up by one exchange and destroyed leaves everything as it was: the slot it took, the count
  // of the VDEVs of the device, its app, and the numbers of the Realm.
  lemma VdevComesAndGoes(s: St, a: Act)
    requires a.VdevCreate? && Enabled(s, a) && !s.pdev[a.p].yielded && s.pdev[a.p].owner == Nobody
    requires s.pdev[a.p].slots[a.slot] == FREE
    ensures var run := [a, VdevTalk(a.v, Success, false), VdevDestroy(a.v)];
            Possible(s, run) && After(s, run) == s
  {
    hide Step, Possible, After, Placed;
    Places(s, a);
    Unlocks(s, a);
    Departs(s, a);
    ThreeActs(s, a, VdevTalk(a.v, Success, false), VdevDestroy(a.v));
  }

  // ---------------------------------------------------------------- a PDEV comes and goes

  lemma Stops(s: St, p: nat, kind: Kind)
    ensures var t := SetPdev(s, p, Up(kind));
            && Enabled(t, PdevStop(p))
            && Step(t, PdevStop(p)) == SetPdev(s, p, Up(kind).(link := Link(kind, Ready, Pending, Stop)))
  {
  }

  lemma Removes(s: St, p: nat, kind: Kind, l: Link)
    requires p !in s.pdev && l.state == Stopped
    ensures var t := SetPdev(s, p, Up(kind).(link := l));
            Enabled(t, PdevDestroy(p)) && Step(t, PdevDestroy(p)) == s
  {
    assert SetPdev(s, p, Up(kind).(link := l)).pdev - {p} == s.pdev;
  }

  // A PDEV that was set up can be stopped and destroyed again, which leaves everything as it was.
  lemma PdevComesAndGoes(s: St, p: nat, kind: Kind) returns (run: seq<Act>)
    requires p !in s.pdev && p !in s.vdev
    ensures Possible(s, run) && After(s, run) == s
    ensures run != [] && run[0] == PdevCreate(p, kind, 0)
  {
    hide Enabled, Step, SetPdev, Possible, After, Up;
    run := BringUp(s, p, kind);
    var talk := PdevTalk(p, Success, false);
    Stops(s, p, kind);
    Then(s, run, PdevStop(p));
    run := run + [PdevStop(p)];
    UpIsFree(kind);
    Talks(s, p, Up(kind), Link(kind, Ready, Pending, Stop));
    Then(s, run, talk);
    run := run + [talk];
    Removes(s, p, kind, Completed(Link(kind, Ready, Pending, Stop), Success, true));
    Then(s, run, PdevDestroy(p));
    run := run + [PdevDestroy(p)];
  }

  lemma UpIsFree(kind: Kind)
    ensures !Up(kind).yielded && Up(kind).owner == Nobody
  {
  }
}
