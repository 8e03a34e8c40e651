/**
  * Commands on Realms and RECs that run to their end with nobody in the way, and how RECs are found and woken.
  */
module LifecycleTrips {
  import opened Lifecycle
  import opened LifecycleProofs
  import opened LifecycleTheorems
  import opened LifecycleRaces

  lemma ThreeSteps(s: St, a: Act, b: Act, c: Act)
    requires Enabled(s, a) && Enabled(Step(s, a), b) && Enabled(Step(Step(s, a), b), c)
    ensures Possible(s, [a, b, c]) && After(s, [a, b, c]) == Step(Step(Step(s, a), b), c)
  {
    hide Enabled, Step, Possible, After;
    NoActs(s);
    Then(s, [], a);
    Then(s, [] + [a], b);
    Then(s, [] + [a] + [b], c);
    assert [] + [a] + [b] + [c] == [a, b, c];
  }

  // RMI_REALM_ACTIVATE of a NEW Realm makes it ACTIVE and changes nothing else.
  lemma ActivateRuns(s: St, pe: nat, r: nat)
    requires At(s, pe, Idle) && r in s.word && r !in s.lock && StateOf(s.word[r]) == NEW
    ensures var run := [ActLock(pe, r), ActLoad(pe), ActCas(pe)];
            Possible(s, run) && After(s, run) == s.(word := s.word[r := Pack(ACTIVE, CountOf(s.word[r]))])
  {
    ActivateSteps(s, pe, r);
    ThreeSteps(s, ActLock(pe, r), ActLoad(pe), ActCas(pe));
  }

  lemma ActivateSteps(s: St, pe: nat, r: nat)
    requires At(s, pe, Idle) && r in s.word && r !in s.lock && StateOf(s.word[r]) == NEW
    ensures Enabled(s, ActLock(pe, r))
    ensures var s1 := Step(s, ActLock(pe, r));
            && Enabled(s1, ActLoad(pe))
            && var s2 := Step(s1, ActLoad(pe));
            && Enabled(s2, ActCas(pe))
            && Step(s2, ActCas(pe)) == s.(word := s.word[r := Pack(ACTIVE, CountOf(s.word[r]))])
  {
    hide StateOf, CountOf, Pack, EnterStep, PsciStep, AdminStep;
    assert s.pc[pe := Idle] == s.pc && s.lock[r := pe] - {r} == s.lock;
  }

  // RMI_REALM_TERMINATE makes a Realm a ZOMBIE if nobody is inside, and otherwise changes nothing.
  lemma TerminateRuns(s: St, pe: nat, r: nat)
    requires Inv(s) && At(s, pe, Idle) && r in s.word && r !in s.lock
    ensures var run := [TermLock(pe, r), TermLoad(pe), TermCas(pe)];
            && Possible(s, run)
            && After(s, run) == if Inside(s, r) == {} then s.(word := s.word[r := Pack(ZOMBIE, 0)]) else s
  {
    hide Inv, Inside;
    TerminateSteps(s, pe, r);
    TerminateEnds(s, pe, r, StateOf(s.word[r]));
    EmptyAtZero(s, r);
    PackedAtZero(s, r);
    ThreeSteps(s, TermLock(pe, r), TermLoad(pe), TermCas(pe));
  }

  lemma PackedAtZero(s: St, r: nat)
    requires Inv(s) && r in s.word
    ensures s.word[r] == Pack(StateOf(s.word[r]), 0) <==> CountOf(s.word[r]) == 0
  {
    hide Inv;
    Repacks(s, r, ZOMBIE);
    Repack(s.word[r]) by { WordFits(s, r) by { InvParts(s); } }
  }

  lemma TerminateSteps(s: St, pe: nat, r: nat)
    requires At(s, pe, Idle) && r in s.word && r !in s.lock
    ensures Enabled(s, TermLock(pe, r))
    ensures var s1 := Step(s, TermLock(pe, r));
            && Enabled(s1, TermLoad(pe))
            && Step(s1, TermLoad(pe)) == Go(s.(lock := s.lock[r := pe]), pe, TermLoaded(r, StateOf(s.word[r])))
  {
    hide StateOf, CountOf, Pack, EnterStep, PsciStep, AdminStep;
  }

  lemma TerminateEnds(s: St, pe: nat, r: nat, state: nat)
    requires At(s, pe, Idle) && r in s.word && r !in s.lock
    ensures var t := Go(s.(lock := s.lock[r := pe]), pe, TermLoaded(r, state));
            && Enabled(t, TermCas(pe))
            && Step(t, TermCas(pe)) == if s.word[r] == Pack(state, 0) then s.(word := s.word[r := Pack(ZOMBIE, 0)]) else s
  {
    hide StateOf, CountOf, Pack, EnterStep, PsciStep, AdminStep;
    assert s.pc[pe := Idle] == s.pc && s.lock[r := pe] - {r} == s.lock;
  }

  // PSCI SYSTEM_OFF of a running REC puts its Realm in SYSTEM_OFF and lets the REC exit.
  lemma OffRuns(s: St, pe: nat)
    requires pe in s.pc && s.pc[pe].Running? && RealmKnown(s, s.pc[pe].rec) && s.rec[s.pc[pe].rec].realm !in s.lock
    ensures var r, run := s.rec[s.pc[pe].rec].realm, [OffLock(pe), OffLoad(pe), OffCas(pe)];
            && Possible(s, run)
            && After(s, run) == Go(s.(word := s.word[r := Pack(SYSTEM_OFF, CountOf(s.word[r]))]), pe, Exiting(s.pc[pe].rec))
  {
    OffSteps(s, pe);
    ThreeSteps(s, OffLock(pe), OffLoad(pe), OffCas(pe));
  }

  lemma OffSteps(s: St, pe: nat)
    requires pe in s.pc && s.pc[pe].Running? && RealmKnown(s, s.pc[pe].rec) && s.rec[s.pc[pe].rec].realm !in s.lock
    ensures Enabled(s, OffLock(pe))
    ensures var r, s1 := s.rec[s.pc[pe].rec].realm, Step(s, OffLock(pe));
            && Enabled(s1, OffLoad(pe))
            && var s2 := Step(s1, OffLoad(pe));
            && Enabled(s2, OffCas(pe))
            && Step(s2, OffCas(pe))
               == Go(s.(word := s.word[r := Pack(SYSTEM_OFF, CountOf(s.word[r]))]), pe, Exiting(s.pc[pe].rec))
  {
    hide StateOf, CountOf, Pack, EnterStep, RealmStep, AdminStep;
    var r := s.rec[s.pc[pe].rec].realm;
    assert s.lock[r := pe] - {r} == s.lock;
  }

  // PSCI CPU_OFF turns the running REC off and lets it exit.  It cannot be entered while it is off.
  lemma OffUntilAsked(s: St, pe: nat, other: nat)
    requires Enabled(s, CpuOff(pe))
    ensures var at, t := s.pc[pe].rec, Step(s, CpuOff(pe));
            && t == Go(s.(rec := s.rec[at := s.rec[at].(runnable := false)]), pe, Exiting(at))
            && !Enabled(t, Claim(other, at))
  {
    hide StateOf, CountOf, Pack, EnterStep, RealmStep, AdminStep;
  }

  // The step destroys the REC, or completes, without a denial, a request for it by a REC that waits for it.
  predicate Wakes(s: St, a: Act, at: nat) {
    || a == RecDestroy(at)
    || (a.CompleteEnd? && a.pe in s.pc && s.pc[a.pe].Completing? && !s.pc[a.pe].denied && s.pc[a.pe].target == at
        && Asks(s, s.pc[a.pe].caller, at))
  }

  ghost predicate NeverWoken(s: St, acts: seq<Act>, at: nat)
    requires Possible(s, acts)
    decreases |acts|
  {
    acts == [] || (!Wakes(s, acts[0], at) && NeverWoken(Step(s, acts[0]), acts[1..], at))
  }

  lemma OffStep(s: St, a: Act, at: nat)
    requires Enabled(s, a) && at in s.rec && !s.rec[at].runnable && !Wakes(s, a, at)
    ensures at in Step(s, a).rec && !Step(s, a).rec[at].runnable
  {
    hide StateOf, CountOf, Pack, EnterStep, PsciStep, RealmStep;
    if !IsAdmin(a) {
      OthersAnswerNothing(s, a);
    }
  }

  // In every run, a REC that is off stays off, and nobody enters it, until a request for it is granted or it is destroyed.
  lemma {:induction false} StaysOff(s: St, acts: seq<Act>, at: nat)
    requires Possible(s, acts) && at in s.rec && !s.rec[at].runnable && NeverWoken(s, acts, at)
    ensures at in After(s, acts).rec && !After(s, acts).rec[at].runnable
    ensures forall i :: 0 <= i < |acts| ==> !(acts[i].Claim? && acts[i].at == at)
    decreases |acts|
  {
    hide Step, Wakes;
    if acts != [] {
      OffStep(s, acts[0], at);
      StaysOff(Step(s, acts[0]), acts[1..], at);
    }
  }

  // Every REC is the one its Realm lists under its MPIDR.
  ghost predicate AllListed(s: St) {
    forall at :: at in s.rec ==> Listed(s, at)
  }

  // No step but those of the administration changes which RECs there are, what they are called or how they are listed.
  predicate SameNames(s: St, t: St) {
    && t.where == s.where && t.rec.Keys == s.rec.Keys
    && forall at :: at in s.rec ==> t.rec[at].realm == s.rec[at].realm && t.rec[at].mpidr == s.rec[at].mpidr
  }

  lemma EnterSameNames(s: St, a: Act)
    requires Enabled(s, a) && IsEnter(a)
    ensures SameNames(s, EnterStep(s, a))
  {
    hide StateOf, CountOf, Pack;
  }

  lemma PsciSameNames(s: St, a: Act)
    requires Enabled(s, a) && (IsPsci(a) || IsRealm(a))
    ensures SameNames(s, Step(s, a))
  {
    hide StateOf, CountOf, Pack, EnterStep, AdminStep;
  }

  lemma AdminListed(s: St, a: Act)
    requires Enabled(s, a) && !IsEnter(a) && !IsPsci(a) && !IsRealm(a) && AllListed(s)
    ensures AllListed(AdminStep(s, a))
  {
    hide StateOf, CountOf, Pack;
    forall at | at in AdminStep(s, a).rec
      ensures Listed(AdminStep(s, a), at)
    {
      assert at in s.rec ==> Listed(s, at);
    }
  }

  lemma {:induction false} ListedAfter(s: St, acts: seq<Act>)
    requires Possible(s, acts) && AllListed(s)
    ensures AllListed(After(s, acts))
    decreases |acts|
  {
    hide Enabled, EnterStep, PsciStep, RealmStep, AdminStep, Listed;
    if acts != [] {
      var a := acts[0];
      if IsEnter(a) {
        EnterSameNames(s, a);
        StillListed(s, Step(s, a));
      } else if IsPsci(a) || IsRealm(a) {
        PsciSameNames(s, a);
        StillListed(s, Step(s, a));
      } else {
        AdminListed(s, a);
      }
      ListedAfter(Step(s, a), acts[1..]);
    }
  }

  lemma StillListed(s: St, t: St)
    requires AllListed(s) && SameNames(s, t)
    ensures AllListed(t)
  {
    forall at | at in t.rec
      ensures Listed(t, at)
    {
      assert Listed(s, at);
    }
  }

  // In every run, however RECs come and go, an MPIDR of a Realm leads to the REC that has it, and no two RECs of a Realm
  // have the same.
  lemma MpidrUnique(s: St, acts: seq<Act>, a: nat, b: nat)
    requires Booted(s) && Possible(s, acts) && a in After(s, acts).rec && b in After(s, acts).rec
    ensures var t := After(s, acts);
            && t.where.Keys >= {(t.rec[a].realm, t.rec[a].mpidr)} && t.where[(t.rec[a].realm, t.rec[a].mpidr)] == a
            && (t.rec[a].realm == t.rec[b].realm && t.rec[a].mpidr == t.rec[b].mpidr ==> a == b)
  {
    ListedAfter(s, acts);
    assert Listed(After(s, acts), a) && Listed(After(s, acts), b);
  }

  // A REC that is created can be asked for by its MPIDR at once.
  lemma CreatedIsFound(s: St, at: nat, r: nat, mpidr: nat, runnable: bool)
    requires Enabled(s, RecCreate(at, r, mpidr, runnable))
    ensures var t := Step(s, RecCreate(at, r, mpidr, runnable));
            && Listed(t, at) && t.rec[at].realm == r && t.rec[at].mpidr == mpidr
            && (forall key :: key in s.where ==> key in t.where && t.where[key] == s.where[key])
            && (forall other :: Listed(s, other) ==> Listed(t, other) && t.rec[other] == s.rec[other])
  {
    hide StateOf, CountOf, Pack, RealmStep, EnterStep, PsciStep;
  }

  // A REC that is created and destroyed, and whose MPIDR is given up, leaves everything as it was.
  lemma RecComesAndGoes(s: St, at: nat, r: nat, mpidr: nat, runnable: bool)
    requires Enabled(s, RecCreate(at, r, mpidr, runnable))
    ensures var run := [RecCreate(at, r, mpidr, runnable), RecDestroy(at), RecUnlist(r, mpidr)];
            Possible(s, run) && After(s, run) == s
  {
    RecGoes(s, at, r, mpidr, runnable);
    ThreeSteps(s, RecCreate(at, r, mpidr, runnable), RecDestroy(at), RecUnlist(r, mpidr));
  }

  lemma RecGoes(s: St, at: nat, r: nat, mpidr: nat, runnable: bool)
    requires Enabled(s, RecCreate(at, r, mpidr, runnable))
    ensures var t := Step(s, RecCreate(at, r, mpidr, runnable));
            && Enabled(t, RecDestroy(at)) && Enabled(Step(t, RecDestroy(at)), RecUnlist(r, mpidr))
            && Step(Step(t, RecDestroy(at)), RecUnlist(r, mpidr)) == s
  {
    hide StateOf, CountOf, Pack, RealmStep, EnterStep, PsciStep;
    var t := Step(s, RecCreate(at, r, mpidr, runnable));
    assert t.rec - {at} == s.rec && t.where - {(r, mpidr)} == s.where;
  }

  // The REC that is listed for an MPIDR the running REC asks for is there, off and not entered.
  predicate Wanted(s: St, pe: nat, mpidr: nat) {
    && pe in s.pc && s.pc[pe].Running? && s.pc[pe].rec in s.rec
    && var r := s.rec[s.pc[pe].rec].realm;
    && (r, mpidr) in s.where
    && var t := s.where[(r, mpidr)];
    && t in s.rec && t != s.pc[pe].rec && s.rec[t].rc == 0 && !s.rec[t].runnable && s.rec[t].mpidr == mpidr
    && s.rec[t].realm == r
  }

  // A CPU_ON from request to answer: the REC that runs asks for another of its Realm, which is off; it leaves, the Host
  // grants the request, and the other REC is on.
  lemma CpuOnRuns(s: St, pe: nat, mpidr: nat, denied: bool) returns (run: seq<Act>)
    requires Inv(s) && Enabled(s, CpuOn(pe, mpidr))
    requires Wanted(s, pe, mpidr)
    ensures Possible(s, run)
    ensures var at, u := s.pc[pe].rec, After(s, run);
            var t := s.where[(s.rec[at].realm, mpidr)];
            && at in u.rec && t in u.rec && pe in u.pc && u.pc[pe] == Idle
            && (u.rec[t].runnable <==> !denied) && !u.rec[at].pending && u.rec[at].answered == s.rec[at].answered + 1
            && u.rec[at].told == if denied then Denied else SwitchedOn
  {
    hide Inv;
    var at := s.pc[pe].rec;
    var t := s.where[(s.rec[at].realm, mpidr)];
    CanLeave(s, pe);
    LeavesWaiting(s, pe, mpidr);
    WaitingCompletes(s, pe, mpidr, denied);
    var s4 := LeavesAsking(s, pe, mpidr, denied);
    hide Enabled, Step, Possible, After, Waiting;
    ThreeSteps(s, CpuOn(pe, mpidr), Decrement(pe), Release(pe));
    run := [CpuOn(pe, mpidr), Decrement(pe), Release(pe)];
    Then(s, run, CompleteBegin(pe, at, denied));
    run := run + [CompleteBegin(pe, at, denied)];
    Then(s, run, CompleteEnd(pe));
    run := run + [CompleteEnd(pe)];
    CompletionIff(s4, pe);
  }

  // The count of the Realm of a processing element inside is positive.
  lemma CanLeave(s: St, pe: nat)
    requires Inv(s) && pe in s.pc && s.pc[pe].Running?
    ensures s.pc[pe].rec in s.rec && s.rec[s.pc[pe].rec].rc == 1
    ensures s.rec[s.pc[pe].rec].realm in s.word && s.word[s.rec[s.pc[pe].rec].realm] > 0
  {
    HoldsRec(s, pe);
    var r := s.rec[s.pc[pe].rec].realm;
    assert pe in Inside(s, r);
    EmptyAtZero(s, r);
  }

  // The state after a REC asked for another and was left.
  function Waiting(s: St, pe: nat, mpidr: nat): (t: St)
    requires Enabled(s, CpuOn(pe, mpidr)) && s.rec[s.pc[pe].rec].realm in s.word && s.word[s.rec[s.pc[pe].rec].realm] > 0
  {
    var at := s.pc[pe].rec;
    var r := s.rec[at].realm;
    Go(s.(rec := s.rec[at := s.rec[at].(pending := true, reqMpidr := mpidr, target := s.where[(r, mpidr)],
                                       asked := s.rec[at].asked + 1, rc := 0)],
          word := s.word[r := s.word[r] - 1]), pe, Idle)
  }

  lemma LeavesWaiting(s: St, pe: nat, mpidr: nat)
    requires Enabled(s, CpuOn(pe, mpidr)) && s.rec[s.pc[pe].rec].rc == 1
    requires s.rec[s.pc[pe].rec].realm in s.word && s.word[s.rec[s.pc[pe].rec].realm] > 0
    ensures var s1 := Step(s, CpuOn(pe, mpidr));
            && Enabled(s1, Decrement(pe))
            && var s2 := Step(s1, Decrement(pe));
            Enabled(s2, Release(pe)) && Step(s2, Release(pe)) == Waiting(s, pe, mpidr)
  {
    hide StateOf, CountOf, Pack, RealmStep, AdminStep;
  }

  lemma WaitingCompletes(s: St, pe: nat, mpidr: nat, denied: bool)
    requires Enabled(s, CpuOn(pe, mpidr)) && s.rec[s.pc[pe].rec].realm in s.word && s.word[s.rec[s.pc[pe].rec].realm] > 0
    ensures var at, s3 := s.pc[pe].rec, Waiting(s, pe, mpidr);
            && Enabled(s3, CompleteBegin(pe, at, denied))
            && Step(s3, CompleteBegin(pe, at, denied)) == Go(s3, pe, Completing(at, s.where[(s.rec[at].realm, mpidr)], denied))
  {
    hide StateOf, CountOf, Pack, RealmStep, EnterStep, PsciStep;
  }

  lemma LeavesAsking(s: St, pe: nat, mpidr: nat, denied: bool) returns (s4: St)
    requires Enabled(s, CpuOn(pe, mpidr))
    requires Wanted(s, pe, mpidr) && s.rec[s.pc[pe].rec].rc == 1
    requires s.rec[s.pc[pe].rec].realm in s.word && s.word[s.rec[s.pc[pe].rec].realm] > 0
    ensures var at := s.pc[pe].rec;
            var t := s.where[(s.rec[at].realm, mpidr)];
            && s4 == Go(Waiting(s, pe, mpidr), pe, Completing(at, t, denied)) && Enabled(s4, CompleteEnd(pe))
            && Asks(s4, at, t) && !s4.rec[t].runnable && s4.rec[at].answered == s.rec[at].answered
            && pe in Step(s4, CompleteEnd(pe)).pc && Step(s4, CompleteEnd(pe)).pc[pe] == Idle
  {
    hide StateOf, CountOf, Pack, RealmStep, EnterStep, PsciStep;
    var at := s.pc[pe].rec;
    s4 := Go(Waiting(s, pe, mpidr), pe, Completing(at, s.where[(s.rec[at].realm, mpidr)], denied));
  }
}
