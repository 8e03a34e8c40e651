/**
  * Updates of the Realm word that have to be tried again.
  */
module LifecycleRaces {
  import opened Lifecycle
  import opened LifecycleProofs
  import opened LifecycleTheorems

  // A step of processing element pe.
  predicate IsOf(a: Act, pe: nat) {
    !a.RealmCreate? && !a.RecCreate? && !a.RecDestroy? && !a.RecUnlist? && a.pe == pe
  }

  predicate NoneOf(acts: seq<Act>, pe: nat) {
    forall i :: 0 <= i < |acts| ==> !IsOf(acts[i], pe)
  }

  // Between the load of a word and its compare-and-swap.
  predicate Loaded(c: Pc) {
    c.IncLoaded? || c.OffLoaded? || c.ActLoaded?
  }

  // The Realm whose word is about to be swapped.
  function Aim(s: St, pe: nat): (r: nat)
    requires pe in s.pc && Loaded(s.pc[pe]) && (InRec(s.pc[pe]) ==> s.pc[pe].rec in s.rec)
  {
    if InRec(s.pc[pe]) then RealmOf(s, pe) else s.pc[pe].realm
  }

  // Some step of the run changes the word of Realm r.
  predicate Raced(s: St, acts: seq<Act>, r: nat)
    requires Possible(s, acts)
    decreases |acts|
  {
    acts != [] && (ChangesWord(s, acts[0], r) || Raced(Step(s, acts[0]), acts[1..], r))
  }

  predicate ChangesWord(s: St, a: Act, r: nat)
    requires Enabled(s, a)
  {
    r in s.word && r in Step(s, a).word && Step(s, a).word[r] != s.word[r]
  }

  lemma EnterLeavesOthers(s: St, a: Act, pe: nat)
    requires Enabled(s, a) && IsEnter(a) && pe in s.pc && a.pe != pe
    ensures pe in EnterStep(s, a).pc && EnterStep(s, a).pc[pe] == s.pc[pe]
    ensures forall at :: at in s.rec ==> at in EnterStep(s, a).rec && EnterStep(s, a).rec[at].realm == s.rec[at].realm
  {
    hide StateOf, CountOf, Pack;
  }

  lemma PsciLeavesOthers(s: St, a: Act, pe: nat)
    requires Enabled(s, a) && IsPsci(a) && pe in s.pc && a.pe != pe
    ensures pe in PsciStep(s, a).pc && PsciStep(s, a).pc[pe] == s.pc[pe]
    ensures forall at :: at in s.rec ==> at in PsciStep(s, a).rec && PsciStep(s, a).rec[at].realm == s.rec[at].realm
  {
    hide StateOf, CountOf, Pack;
  }

  lemma AdminLeavesOthers(s: St, a: Act, pe: nat)
    requires Enabled(s, a) && IsAdmin(a) && pe in s.pc && !IsOf(a, pe)
    ensures pe in AdminStep(s, a).pc && AdminStep(s, a).pc[pe] == s.pc[pe]
    ensures forall at :: at in s.rec && s.rec[at].rc > 0 ==>
              at in AdminStep(s, a).rec && AdminStep(s, a).rec[at].realm == s.rec[at].realm
  {
    hide StateOf, CountOf, Pack;
  }

  lemma RealmLeavesOthers(s: St, a: Act, pe: nat)
    requires Enabled(s, a) && IsRealm(a) && pe in s.pc && a.pe != pe
    ensures pe in RealmStep(s, a).pc && RealmStep(s, a).pc[pe] == s.pc[pe] && RealmStep(s, a).rec == s.rec
  {
    hide StateOf, CountOf, Pack;
  }

  // A step of others leaves a processing element where it is, and its REC in its Realm.
  lemma OthersLeave(s: St, a: Act, pe: nat)
    requires Enabled(s, a) && !IsOf(a, pe) && pe in s.pc
    ensures pe in Step(s, a).pc && Step(s, a).pc[pe] == s.pc[pe]
    ensures forall at :: at in s.rec && s.rec[at].rc > 0 ==>
              at in Step(s, a).rec && Step(s, a).rec[at].realm == s.rec[at].realm
  {
    hide Enabled, EnterStep, PsciStep, RealmStep, AdminStep;
    if IsEnter(a) {
      EnterLeavesOthers(s, a, pe);
    } else if IsPsci(a) {
      PsciLeavesOthers(s, a, pe);
    } else if IsRealm(a) {
      RealmLeavesOthers(s, a, pe);
    } else {
      AdminLeavesOthers(s, a, pe);
    }
  }

  // A processing element that has loaded a word holds on to what it aims at.
  lemma HoldsRec(s: St, pe: nat)
    requires Inv(s) && pe in s.pc && InRec(s.pc[pe])
    ensures s.pc[pe].rec in s.rec && s.rec[s.pc[pe].rec].rc == 1 && s.rec[s.pc[pe].rec].realm in s.word
  {
    hide WordInv, ZombieInv, RequestInv, LockInv;
  }

  // While others run, the word is what was loaded or one of their steps changed it.
  lemma {:induction false} SameOrRaced(s: St, acts: seq<Act>, pe: nat, r: nat)
    requires Inv(s) && Possible(s, acts) && NoneOf(acts, pe) && r in s.word && pe in s.pc && Loaded(s.pc[pe])
    requires (InRec(s.pc[pe]) ==> s.pc[pe].rec in s.rec) && r == Aim(s, pe)
    ensures var t := After(s, acts);
            && pe in t.pc && t.pc[pe] == s.pc[pe] && (InRec(t.pc[pe]) ==> t.pc[pe].rec in t.rec) && Aim(t, pe) == r
            && r in t.word && (t.word[r] != s.word[r] ==> Raced(s, acts, r))
    decreases |acts|
  {
    hide Inv, Enabled, Step, StateOf;
    if acts != [] {
      var t := Step(s, acts[0]);
      assert !IsOf(acts[0], pe);
      if InRec(s.pc[pe]) {
        HoldsRec(s, pe);
      }
      OthersLeave(s, acts[0], pe);
      StepMovesState(s, acts[0], r);
      StepKeepsInv(s, acts[0]);
      SameOrRaced(t, acts[1..], pe, r);
    }
  }

  // What a processing element that finds the word changed goes back to.
  predicate Retries(c: Pc) {
    c.Claimed? || c.OffLocked? || c.ActLocked?
  }

  predicate LoadThenCas(load: Act, cas: Act, pe: nat) {
    || (load == IncLoad(pe) && cas == IncCas(pe))
    || (load == OffLoad(pe) && cas == OffCas(pe))
    || (load == ActLoad(pe) && cas == ActCas(pe))
  }

  lemma LoadSees(s: St, load: Act, pe: nat)
    requires Inv(s) && Enabled(s, load) && (load == IncLoad(pe) || load == OffLoad(pe) || load == ActLoad(pe))
    ensures var t := Step(s, load);
            && pe in t.pc
            && (Loaded(t.pc[pe]) ==>
                  && (InRec(t.pc[pe]) ==> t.pc[pe].rec in t.rec) && Aim(t, pe) in t.word
                  && t.word[Aim(t, pe)] == t.pc[pe].seen)
  {
    hide Inv, StateOf, CountOf, Pack;
  }

  lemma RetryIff(s: St, cas: Act, pe: nat)
    requires Enabled(s, cas) && (cas == IncCas(pe) || cas == OffCas(pe) || cas == ActCas(pe))
    ensures pe in s.pc && Loaded(s.pc[pe]) && (InRec(s.pc[pe]) ==> s.pc[pe].rec in s.rec) && Aim(s, pe) in s.word
    ensures pe in Step(s, cas).pc
    ensures Retries(Step(s, cas).pc[pe]) <==> s.word[Aim(s, pe)] != s.pc[pe].seen
  {
    hide StateOf, CountOf, Pack;
  }

  // An update is tried again only if somebody else's update of the same word went through since the load.
  lemma RetryMeansProgress(s: St, load: Act, acts: seq<Act>, cas: Act, pe: nat)
    requires Inv(s) && LoadThenCas(load, cas, pe) && Enabled(s, load) && Possible(Step(s, load), acts) && NoneOf(acts, pe)
    requires Enabled(After(Step(s, load), acts), cas)
    ensures var t := Step(s, load);
            var u := After(t, acts);
            && pe in t.pc && pe in u.pc && t.pc[pe] == u.pc[pe] && pe in Step(u, cas).pc
            && Loaded(u.pc[pe]) && (InRec(u.pc[pe]) ==> u.pc[pe].rec in u.rec)
            && (Retries(Step(u, cas).pc[pe]) ==> Raced(t, acts, Aim(u, pe)))
  {
    hide Inv, Enabled, Step, StateOf, Possible, After;
    var t := Step(s, load);
    var u := After(t, acts);
    StepKeepsInv(s, load);
    LoadSees(s, load, pe);
    RetryIff(u, cas, pe);
    StaysPut(t, acts, pe);
    SameOrRaced(t, acts, pe, Aim(t, pe));
  }

  lemma {:induction false} StaysPut(s: St, acts: seq<Act>, pe: nat)
    requires Possible(s, acts) && NoneOf(acts, pe) && pe in s.pc
    ensures pe in After(s, acts).pc && After(s, acts).pc[pe] == s.pc[pe]
    decreases |acts|
  {
    hide Enabled, Step;
    if acts != [] {
      assert !IsOf(acts[0], pe);
      OthersLeave(s, acts[0], pe);
      StaysPut(Step(s, acts[0]), acts[1..], pe);
    }
  }

  // The word of a Realm is changed only by a compare-and-swap that goes through and by a decrement, on behalf of a
  // processing element.
  lemma WordChangers(s: St, a: Act, r: nat)
    requires Inv(s) && Enabled(s, a) && ChangesWord(s, a, r)
    ensures a.IncCas? || a.OffCas? || a.ActCas? || a.TermCas? || a.Decrement?
    ensures (a.IncCas? || a.OffCas? || a.ActCas?) ==> a.pe in Step(s, a).pc && !Retries(Step(s, a).pc[a.pe])
  {
    hide Inv, StateOf, CountOf, Pack;
  }

  // ---------------------------------------------------------------- what the Host decides

  // Whatever others do between the two locked sections of RMI_PSCI_COMPLETE: if the caller then still waits for the REC it
  // named and that is off and not entered, a granted request switches it on and a denied one does not; either way
  // the caller has its answer.
  lemma HostDecides(s: St, pe: nat, c: nat, denied: bool, acts: seq<Act>)
    requires Enabled(s, CompleteBegin(pe, c, denied)) && Possible(Step(s, CompleteBegin(pe, c, denied)), acts) && NoneOf(acts, pe)
    requires var u := After(Step(s, CompleteBegin(pe, c, denied)), acts);
             Asks(u, c, s.rec[c].target) && !u.rec[s.rec[c].target].runnable
    ensures var u, t := After(Step(s, CompleteBegin(pe, c, denied)), acts), s.rec[c].target;
            && Enabled(u, CompleteEnd(pe))
            && var v := Step(u, CompleteEnd(pe));
            && t in v.rec && (v.rec[t].runnable <==> !denied)
            && AnswerOf(u, v, c) && v.rec[c].told == if denied then Denied else SwitchedOn
  {
    hide Enabled, Step, Possible, After;
    var s1 := Step(s, CompleteBegin(pe, c, denied));
    BeginsCompleting(s, pe, c, denied);
    StaysPut(s1, acts, pe);
    var u := After(s1, acts);
    MayEndCompleting(u, pe);
    CompletionIff(u, pe);
  }

  lemma BeginsCompleting(s: St, pe: nat, c: nat, denied: bool)
    requires Enabled(s, CompleteBegin(pe, c, denied))
    ensures c in s.rec && pe in Step(s, CompleteBegin(pe, c, denied)).pc
    ensures Step(s, CompleteBegin(pe, c, denied)).pc[pe] == Completing(c, s.rec[c].target, denied)
  {
  }

  lemma MayEndCompleting(s: St, pe: nat)
    requires pe in s.pc && s.pc[pe].Completing?
    ensures Enabled(s, CompleteEnd(pe))
  {
  }

  // A CPU_ON names the REC that is listed for the MPIDR, and makes the caller wait.
  lemma CpuOnAsks(s: St, pe: nat, mpidr: nat)
    requires Enabled(s, CpuOn(pe, mpidr))
    ensures var at, t := s.pc[pe].rec, Step(s, CpuOn(pe, mpidr));
            && at in t.rec && t.rec[at].pending && t.rec[at].reqMpidr == mpidr
            && t.rec[at].target == s.where[(s.rec[at].realm, mpidr)] && t.rec[at].asked == s.rec[at].asked + 1
            && t.pc[pe] == Exiting(at)
  {
    hide Pack, CountOf, StateOf, EnterStep, RealmStep, AdminStep;
  }

  // ---------------------------------------------------------------- state changes take effect

  // A compare-and-swap that is not tried again has put the Realm in the state that was asked for, kept the count and
  // released the RD lock.
  predicate TookEffect(s: St, t: St, pe: nat, r: nat, state: nat, next: Pc) {
    && pe in t.pc && r in s.word && r in t.word
    && (!Retries(t.pc[pe]) ==>
          StateOf(t.word[r]) == state && CountOf(t.word[r]) == CountOf(s.word[r]) && r !in t.lock && t.pc[pe] == next)
    && (Retries(t.pc[pe]) ==> t.word == s.word && t.lock == s.lock)
  }

  lemma ActivateTakesEffect(s: St, pe: nat)
    requires Inv(s) && Enabled(s, ActCas(pe))
    ensures TookEffect(s, Step(s, ActCas(pe)), pe, s.pc[pe].realm, ACTIVE, Idle)
  {
    hide StateOf, CountOf, Pack, Inv, EnterStep, PsciStep, AdminStep;
    Repacks(s, s.pc[pe].realm, ACTIVE);
  }

  lemma Repacks(s: St, r: nat, state: nat)
    requires Inv(s) && r in s.word && state <= ZOMBIE
    ensures StateOf(Pack(state, CountOf(s.word[r]))) == state && CountOf(Pack(state, CountOf(s.word[r]))) == CountOf(s.word[r])
  {
    hide StateOf, Pack, WordInv;
    InvParts(s);
    WordFits(s, r);
    Unpack(state, CountOf(s.word[r]));
  }

  lemma OffTakesEffect(s: St, pe: nat)
    requires Inv(s) && Enabled(s, OffCas(pe))
    ensures TookEffect(s, Step(s, OffCas(pe)), pe, RealmOf(s, pe), SYSTEM_OFF, Exiting(s.pc[pe].rec))
  {
    hide StateOf, CountOf, Pack, Inv, EnterStep, RealmStep, AdminStep;
    Repacks(s, RealmOf(s, pe), SYSTEM_OFF);
  }

  // ---------------------------------------------------------------- entering a REC and leaving it

  lemma {:induction false} Then(s: St, acts: seq<Act>, a: Act)
    requires Possible(s, acts) && Enabled(After(s, acts), a)
    ensures Possible(s, acts + [a]) && After(s, acts + [a]) == Step(After(s, acts), a)
    decreases |acts|
  {
    hide Enabled, Step;
    if acts != [] {
      assert (acts + [a])[0] == acts[0] && (acts + [a])[1..] == acts[1..] + [a];
      Then(Step(s, acts[0]), acts[1..], a);
    } else {
      assert [] + [a] == [a];
      assert Possible(Step(s, a), []) && After(Step(s, a), []) == Step(s, a) && [a][1..] == [];
    }
  }

  // What the steps of RMI_REC_ENTER do when nothing stands in the way.
  function Entered(s: St, pe: nat, at: nat, c: Pc, inside: nat): (t: St)
    requires at in s.rec && s.rec[at].realm in s.word
  {
    var r := s.rec[at].realm;
    s.(rec := s.rec[at := s.rec[at].(rc := 1)], pc := s.pc[pe := c], word := s.word[r := s.word[r] + inside])
  }

  predicate MayEnter(s: St, pe: nat, at: nat) {
    && At(s, pe, Idle) && at in s.rec && s.rec[at].runnable && s.rec[at].rc == 0 && !s.rec[at].pending
    && s.rec[at].realm in s.word && StateOf(s.word[s.rec[at].realm]) == ACTIVE
  }

  lemma EnterSteps(s: St, pe: nat, at: nat)
    requires MayEnter(s, pe, at)
    ensures var w := s.word[s.rec[at].realm];
            && Enabled(s, Claim(pe, at)) && Step(s, Claim(pe, at)) == Entered(s, pe, at, Claimed(at), 0)
            && var s1 := Entered(s, pe, at, Claimed(at), 0);
            && Enabled(s1, IncLoad(pe)) && Step(s1, IncLoad(pe)) == Entered(s, pe, at, IncLoaded(at, w), 0)
            && var s2 := Entered(s, pe, at, IncLoaded(at, w), 0);
            && Enabled(s2, IncCas(pe)) && Step(s2, IncCas(pe)) == Entered(s, pe, at, Counted(at), 1)
            && var s3 := Entered(s, pe, at, Counted(at), 1);
            Enabled(s3, CheckPending(pe)) && Step(s3, CheckPending(pe)) == Entered(s, pe, at, Running(at), 1)
  {
    hide StateOf, CountOf, Pack, PsciStep, RealmStep, AdminStep;
    var r := s.rec[at].realm;
    assert s.word[r := s.word[r]] == s.word;
  }

  lemma LeaveSteps(s: St, pe: nat, at: nat)
    requires MayEnter(s, pe, at)
    ensures var s4 := Entered(s, pe, at, Running(at), 1);
            && Enabled(s4, Leave(pe)) && Step(s4, Leave(pe)) == Entered(s, pe, at, Exiting(at), 1)
            && var s5 := Entered(s, pe, at, Exiting(at), 1);
            Enabled(s5, Decrement(pe)) && Step(s5, Decrement(pe)) == Entered(s, pe, at, Leaving(at), 0)
  {
    hide StateOf, CountOf, Pack, PsciStep, RealmStep, AdminStep;
  }

  lemma ReleaseStep(s: St, pe: nat, at: nat)
    requires MayEnter(s, pe, at)
    ensures var s6 := Entered(s, pe, at, Leaving(at), 0); Enabled(s6, Release(pe)) && Step(s6, Release(pe)) == s
  {
    hide StateOf, CountOf, Pack, PsciStep, RealmStep, AdminStep;
    var r := s.rec[at].realm;
    assert s.word[r := s.word[r]] == s.word && s.rec[at := s.rec[at]] == s.rec && s.pc[pe := Idle] == s.pc;
  }

  // A REC that is on, waits for nothing and is not entered, of an ACTIVE Realm, can be entered: RMI_REC_ENTER leads to it
  // running, with the count one up.  Leaving it again is the identity on the whole state.
  lemma EnterThenLeave(s: St, pe: nat, at: nat)
    requires MayEnter(s, pe, at)
    ensures var go := [Claim(pe, at)] + [IncLoad(pe)] + [IncCas(pe)] + [CheckPending(pe)];
            && Possible(s, go) && After(s, go) == Entered(s, pe, at, Running(at), 1)
            && var trip := go + [Leave(pe)] + [Decrement(pe)] + [Release(pe)];
            Possible(s, trip) && After(s, trip) == s
  {
    hide Enabled, Step, Entered, Possible, After;
    EnterSteps(s, pe, at);
    LeaveSteps(s, pe, at);
    ReleaseStep(s, pe, at);
    NoActs(s);
    Then(s, [], Claim(pe, at));
    assert [] + [Claim(pe, at)] == [Claim(pe, at)];
    var run := [Claim(pe, at)];
    Then(s, run, IncLoad(pe));
    run := run + [IncLoad(pe)];
    Then(s, run, IncCas(pe));
    run := run + [IncCas(pe)];
    Then(s, run, CheckPending(pe));
    run := run + [CheckPending(pe)];
    Then(s, run, Leave(pe));
    run := run + [Leave(pe)];
    Then(s, run, Decrement(pe));
    run := run + [Decrement(pe)];
    Then(s, run, Release(pe));
  }

  lemma NoActs(s: St)
    ensures Possible(s, []) && After(s, []) == s
  {
  }
}
