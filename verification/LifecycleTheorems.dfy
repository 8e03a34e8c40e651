/**
  * What holds of the Realms and RECs in every run.
  */
module LifecycleTheorems {
  import opened Lifecycle
  import opened LifecycleProofs

  // ---------------------------------------------------------------- runs

  // The monitor after boot: no Realm, no REC, every processing element idle.
  ghost predicate Booted(s: St) {
    && s.word == map[] && s.lock == map[] && s.rec == map[] && s.where == map[]
    && |s.pc| < COUNT_LIMIT && (forall pe :: pe in s.pc ==> s.pc[pe] == Idle)
  }

  predicate Possible(s: St, acts: seq<Act>)
    decreases |acts|
  {
    acts == [] || (Enabled(s, acts[0]) && Possible(Step(s, acts[0]), acts[1..]))
  }

  function After(s: St, acts: seq<Act>): (t: St)
    requires Possible(s, acts)
    decreases |acts|
  {
    if acts == [] then s else After(Step(s, acts[0]), acts[1..])
  }

  lemma {:induction false} InvAfter(s: St, acts: seq<Act>)
    requires Inv(s) && Possible(s, acts)
    ensures Inv(After(s, acts))
    decreases |acts|
  {
    hide Inv, Enabled, Step;
    if acts != [] {
      StepKeepsInv(s, acts[0]);
      InvAfter(Step(s, acts[0]), acts[1..]);
    }
  }

  lemma RunKeepsInv(s: St, acts: seq<Act>)
    requires Booted(s) && Possible(s, acts)
    ensures Inv(After(s, acts))
  {
    InvAfter(s, acts);
  }

  // ---------------------------------------------------------------- the word

  // However increments, decrements and state changes interleave, no update is lost: the word always packs the
  // state with the exact number of processing elements inside.
  lemma WordIsExact(s: St, acts: seq<Act>, r: nat)
    requires Booted(s) && Possible(s, acts) && r in After(s, acts).word
    ensures var t := After(s, acts);
            t.word[r] == Pack(StateOf(t.word[r]), |Inside(t, r)|) && |Inside(t, r)| < COUNT_LIMIT && StateOf(t.word[r]) <= ZOMBIE
  {
    RunKeepsInv(s, acts);
    Repack(After(s, acts).word[r]);
  }

  // The state may stay, go from NEW to ACTIVE, from ACTIVE to SYSTEM_OFF, or to ZOMBIE when nobody is inside.
  predicate Moves(before: nat, after: nat, inside: set<nat>) {
    || after == before
    || (before == NEW && after == ACTIVE)
    || (before == ACTIVE && after == SYSTEM_OFF)
    || (after == ZOMBIE && inside == {})
  }

  lemma StepMovesState(s: St, a: Act, r: nat)
    requires Inv(s) && Enabled(s, a) && r in s.word
    ensures r in Step(s, a).word && Moves(StateOf(s.word[r]), StateOf(Step(s, a).word[r]), Inside(s, r))
    ensures StateOf(s.word[r]) <= StateOf(Step(s, a).word[r]) <= ZOMBIE
  {
    hide Inv, Enabled, StateOf, CountOf, Pack, EnterStep, RealmStep, AdminStep, Inside;
    StateFits(s, r);
    if IsEnter(a) {
      EnterKeepsState(s, a, r) by { InvParts(s); }
    } else if IsPsci(a) {
      PsciMovesState(s, a, r);
    } else if IsRealm(a) {
      RealmShape(s, a);
      if RealmStep(s, a).word[r] != s.word[r] {
        StateChange(s, a, r);
        EmptyAtZero(s, r);
      }
    } else {
      AdminWords(s, a) by { InvParts(s); }
    }
  }

  lemma InvParts(s: St)
    requires Inv(s)
    ensures WordInv(s) && ZombieInv(s) && RunnerInv(s) && RequestInv(s) && LockInv(s)
  {
  }

  lemma StateFits(s: St, r: nat)
    requires Inv(s) && r in s.word
    ensures StateOf(s.word[r]) <= ZOMBIE
  {
    Repack(s.word[r]);
  }

  lemma EmptyAtZero(s: St, r: nat)
    requires Inv(s) && r in s.word
    ensures CountOf(s.word[r]) == 0 <==> Inside(s, r) == {}
  {
  }

  lemma PsciMovesState(s: St, a: Act, r: nat)
    requires Inv(s) && Enabled(s, a) && IsPsci(a) && r in s.word
    ensures r in PsciStep(s, a).word
    ensures StateOf(PsciStep(s, a).word[r]) == StateOf(s.word[r])
            || (StateOf(PsciStep(s, a).word[r]) == SYSTEM_OFF && StateOf(s.word[r]) == ACTIVE)
  {
    if a.OffCas? && r == RealmOf(s, a.pe) {
      Repack(s.word[r]);
      Unpack(SYSTEM_OFF, CountOf(s.word[r]));
      assert a.pe in Inside(s, r);
      SomebodyInside(s, a.pe, r);
    }
  }

  // The state of a Realm never goes back, over any run.
  lemma {:induction false} StateMonotone(s: St, acts: seq<Act>, r: nat)
    requires Inv(s) && Possible(s, acts) && r in s.word
    ensures r in After(s, acts).word && StateOf(s.word[r]) <= StateOf(After(s, acts).word[r]) <= ZOMBIE
    decreases |acts|
  {
    hide Inv, Enabled, Step, StateOf;
    if acts == [] {
      StateFits(s, r);
    } else {
      StepMovesState(s, acts[0], r);
      StepKeepsInv(s, acts[0]);
      StateMonotone(Step(s, acts[0]), acts[1..], r);
    }
  }

  // Nobody is inside a ZOMBIE Realm, and whatever happens next nobody ever is.
  lemma ZombieIsFinal(s: St, acts: seq<Act>, r: nat)
    requires Inv(s) && Possible(s, acts) && r in s.word && StateOf(s.word[r]) == ZOMBIE
    ensures var t := After(s, acts); r in t.word && t.word[r] == Pack(ZOMBIE, 0) && Inside(t, r) == {}
  {
    StateMonotone(s, acts, r);
    InvAfter(s, acts);
    Repack(After(s, acts).word[r]);
  }

  // RMI_REALM_TERMINATE makes the Realm a ZOMBIE exactly when nobody is inside it.
  lemma TerminateIff(s: St, pe: nat, r: nat, state: nat)
    requires pe in s.pc && s.pc[pe] == TermLoaded(r, state) && r in s.word
    requires Inv(s)
    ensures var t := RealmStep(s, TermCas(pe)); r in t.word && (StateOf(t.word[r]) == ZOMBIE <==> Inside(s, r) == {})
  {
    LockAt(s, pe);
    Repack(s.word[r]);
    Unpack(ZOMBIE, 0);
    EmptyAtZero(s, r);
  }

  // Whoever is inside after the step was inside before, in the same REC of the same Realm.
  ghost predicate NobodyEnters(s: St, t: St) {
    forall pe :: pe in t.pc && IsInside(t.pc[pe]) ==>
      && pe in s.pc && IsInside(s.pc[pe]) && s.pc[pe].rec in s.rec && t.pc[pe].rec == s.pc[pe].rec && t.pc[pe].rec in t.rec
      && t.rec[t.pc[pe].rec].realm == s.rec[s.pc[pe].rec].realm
  }

  lemma EnterQuiet(s: St, a: Act)
    requires RunnerInv(s) && Enabled(s, a) && IsEnter(a) && !a.IncCas?
    ensures NobodyEnters(s, EnterStep(s, a))
  {
    hide Pack, CountOf, StateOf, RunnerInv, NobodyEnters;
    var t := EnterStep(s, a);
    assert t.pc == s.pc[a.pe := t.pc[a.pe]] && a.pe in s.pc && t.rec.Keys == s.rec.Keys;
    assert IsInside(t.pc[a.pe]) ==> IsInside(s.pc[a.pe]) && t.pc[a.pe].rec == s.pc[a.pe].rec;
    assert forall at :: at in s.rec ==> t.rec[at].realm == s.rec[at].realm;
    QuietMove(s, t, a.pe);
  }

  // One processing element moves without getting inside.
  lemma QuietMove(s: St, t: St, pe: nat)
    requires RunnerInv(s) && pe in s.pc && pe in t.pc && t.pc == s.pc[pe := t.pc[pe]] && t.rec.Keys == s.rec.Keys
    requires IsInside(t.pc[pe]) ==> IsInside(s.pc[pe]) && t.pc[pe].rec == s.pc[pe].rec
    requires forall at :: at in s.rec ==> t.rec[at].realm == s.rec[at].realm
    ensures NobodyEnters(s, t)
  {
  }

  lemma PsciQuiet(s: St, a: Act)
    requires RunnerInv(s) && Enabled(s, a) && IsPsci(a)
    ensures NobodyEnters(s, PsciStep(s, a))
  {
    hide Pack, CountOf, StateOf, RunnerInv, NobodyEnters;
    var t := PsciStep(s, a);
    assert t.pc == s.pc[a.pe := t.pc[a.pe]] && a.pe in s.pc && t.rec.Keys == s.rec.Keys;
    assert IsInside(t.pc[a.pe]) ==> IsInside(s.pc[a.pe]) && t.pc[a.pe].rec == s.pc[a.pe].rec;
    assert forall at :: at in s.rec ==> t.rec[at].realm == s.rec[at].realm;
    QuietMove(s, t, a.pe);
  }

  lemma CasAlone(s: St, p: nat)
    requires RunnerInv(s) && Enabled(s, IncCas(p))
    ensures var t := EnterStep(s, IncCas(p));
            if s.word[RealmOf(s, p)] == s.pc[p].seen then t.rec == s.rec && t.pc == s.pc[p := Counted(s.pc[p].rec)]
            else NobodyEnters(s, t)
  {
    hide Pack, CountOf, StateOf;
  }

  lemma OthersQuiet(s: St, a: Act)
    requires RunnerInv(s) && Enabled(s, a) && !IsEnter(a) && !IsPsci(a)
    ensures NobodyEnters(s, Step(s, a))
  {
    hide Pack, CountOf, StateOf, RealmStep, AdminStep, Enabled;
    if IsRealm(a) {
      RealmShape(s, a);
    } else {
      AdminKeepsClaims(s, a);
    }
  }

  lemma OnlyCasEnters(s: St, a: Act, pe: nat, r: nat)
    requires RunnerInv(s) && Enabled(s, a) && pe !in Inside(s, r) && pe in Inside(Step(s, a), r)
    ensures a == IncCas(pe) && RealmOf(s, pe) == r && s.word[r] == s.pc[pe].seen
  {
    hide Pack, CountOf, StateOf, EnterStep, PsciStep, RealmStep, AdminStep, RunnerInv;
    if a.IncCas? {
      RunnerAt(s, a.pe);
      CasAlone(s, a.pe);
    } else if IsEnter(a) {
      EnterQuiet(s, a);
    } else if IsPsci(a) {
      PsciQuiet(s, a);
    } else {
      OthersQuiet(s, a);
    }
  }

  // A processing element gets inside only while the Realm is ACTIVE.
  lemma EntersOnlyActive(s: St, a: Act, pe: nat, r: nat)
    requires Inv(s) && Enabled(s, a) && pe !in Inside(s, r) && pe in Inside(Step(s, a), r)
    ensures r in s.word && r in Step(s, a).word && StateOf(s.word[r]) == ACTIVE && StateOf(Step(s, a).word[r]) == ACTIVE
  {
    hide Pack, CountOf, StateOf, WordInv, ZombieInv, RequestInv, LockInv, LockOk;
    OnlyCasEnters(s, a, pe, r);
    LockAt(s, pe) by { InvParts(s); }
    EnterKeepsState(s, a, r);
  }

  // A processing element in the middle of a command can always take its next step: in particular the count it
  // is to decrement is positive and the reference it is to return is there.
  lemma NeverStuck(s: St, pe: nat)
    requires Inv(s) && pe in s.pc
    ensures s.pc[pe].Claimed? ==> Enabled(s, IncLoad(pe))
    ensures s.pc[pe].IncLoaded? ==> Enabled(s, IncCas(pe))
    ensures s.pc[pe].Counted? ==> Enabled(s, CheckPending(pe))
    ensures s.pc[pe].OffLocked? ==> Enabled(s, OffLoad(pe))
    ensures s.pc[pe].OffLoaded? ==> Enabled(s, OffCas(pe))
    ensures s.pc[pe].Exiting? ==> Enabled(s, Decrement(pe)) && CountOf(s.word[RealmOf(s, pe)]) > 0
    ensures s.pc[pe].Leaving? ==> Enabled(s, Release(pe))
    ensures s.pc[pe].ActLocked? ==> Enabled(s, ActLoad(pe))
    ensures s.pc[pe].ActLoaded? ==> Enabled(s, ActCas(pe))
    ensures s.pc[pe].TermLocked? ==> Enabled(s, TermLoad(pe))
    ensures s.pc[pe].TermLoaded? ==> Enabled(s, TermCas(pe))
  {
    hide StateOf, CountOf, Pack, WordInv, ZombieInv, RequestInv, RunnerInv, LockInv;
    LockAt(s, pe);
    if InRec(s.pc[pe]) {
      RunnerAt(s, pe);
    }
    if s.pc[pe].Exiting? {
      SomebodyInside(s, pe, RealmOf(s, pe));
    }
  }

  // ---------------------------------------------------------------- RECs

  // A REC runs on at most one processing element.
  lemma SingleRunner(s: St, acts: seq<Act>, pe: nat, other: nat)
    requires Booted(s) && Possible(s, acts)
    requires var t := After(s, acts);
             pe in t.pc && other in t.pc && InRec(t.pc[pe]) && InRec(t.pc[other]) && t.pc[pe].rec == t.pc[other].rec
    ensures pe == other
  {
    RunKeepsInv(s, acts);
  }

  // A REC that runs is in an existing Realm, is not off, waits for no completion and has had every request
  // answered.
  lemma RunnerIsFit(s: St, acts: seq<Act>, pe: nat)
    requires Booted(s) && Possible(s, acts) && pe in After(s, acts).pc && IsRunning(After(s, acts).pc[pe])
    ensures var t := After(s, acts);
            var at := t.pc[pe].rec;
            && RealmKnown(t, at) && t.rec[at].runnable && !t.rec[at].pending && t.rec[at].answered == t.rec[at].asked
            && (StateOf(t.word[t.rec[at].realm]) == ACTIVE || StateOf(t.word[t.rec[at].realm]) == SYSTEM_OFF)
  {
    var t := After(s, acts);
    RunKeepsInv(s, acts);
    RunnerAt(t, pe);
    assert pe in Inside(t, t.rec[t.pc[pe].rec].realm);
    SomebodyInside(t, pe, t.rec[t.pc[pe].rec].realm);
  }

  // Outside RMI_PSCI_COMPLETE no REC is switched on and no request answered.
  predicate AnswersNothing(s: St, t: St) {
    forall at :: at in s.rec ==>
      at in t.rec && t.rec[at].answered == s.rec[at].answered && (t.rec[at].runnable ==> s.rec[at].runnable)
  }

  lemma EnterAnswersNothing(s: St, a: Act)
    requires Enabled(s, a) && IsEnter(a)
    ensures AnswersNothing(s, EnterStep(s, a))
  {
    hide Pack, CountOf, StateOf;
  }

  lemma PsciAnswersNothing(s: St, a: Act)
    requires Enabled(s, a) && IsPsci(a)
    ensures AnswersNothing(s, PsciStep(s, a))
  {
    hide Pack, CountOf, StateOf;
  }

  lemma OthersAnswerNothing(s: St, a: Act)
    requires Enabled(s, a) && (IsEnter(a) || IsPsci(a) || IsRealm(a))
    ensures AnswersNothing(s, Step(s, a))
  {
    hide Enabled, EnterStep, PsciStep, RealmStep;
    if IsEnter(a) {
      EnterAnswersNothing(s, a);
    } else if IsPsci(a) {
      PsciAnswersNothing(s, a);
    } else {
      RealmShape(s, a);
    }
  }

  // A REC is switched on only by a completion, on behalf of another REC of its own Realm that asked for its
  // MPIDR and is still waiting; neither of them is entered at that moment, and the caller gets its answer.
  lemma SwitchedOnWhenAsked(s: St, a: Act, at: nat)
    requires Enabled(s, a) && at in s.rec && at in Step(s, a).rec && !s.rec[at].runnable && Step(s, a).rec[at].runnable
    ensures exists c :: Asks(s, c, at) && AnswerOf(s, Step(s, a), c)
  {
    hide Pack, CountOf, StateOf, EnterStep, PsciStep, RealmStep;
    if !IsAdmin(a) {
      OthersAnswerNothing(s, a);
    }
    var c := s.pc[a.pe].caller;
    assert a.CompleteEnd? && s.pc[a.pe].target == at;
    assert Asks(s, c, at) && AnswerOf(s, Step(s, a), c);
  }

  predicate Asks(s: St, c: nat, at: nat) {
    && c in s.rec && at in s.rec && c != at && s.rec[c].realm == s.rec[at].realm && s.rec[c].reqMpidr == s.rec[at].mpidr
    && s.rec[c].pending && s.rec[c].rc == 0 && s.rec[at].rc == 0
  }

  predicate AnswerOf(s: St, t: St, c: nat) {
    c in s.rec && c in t.rec && s.rec[c].pending && !t.rec[c].pending && t.rec[c].answered == s.rec[c].answered + 1
  }

  // A step answers a request only if it is pending, and then ends the wait: no request is completed twice.
  lemma AnsweredOnce(s: St, a: Act, c: nat)
    requires Enabled(s, a) && c in s.rec && c in Step(s, a).rec && Step(s, a).rec[c].answered != s.rec[c].answered
    ensures AnswerOf(s, Step(s, a), c)
  {
    hide Pack, CountOf, StateOf, EnterStep, PsciStep, RealmStep;
    if !IsAdmin(a) {
      OthersAnswerNothing(s, a);
    }
  }

  // A denied request of a REC that waits and is not entered is answered, whatever became of the target: at once, or in
  // the section that does without it.
  lemma DenialAnswers(s: St, a: Act, c: nat)
    requires Enabled(s, a) && c in s.rec && s.rec[c].pending && s.rec[c].rc == 0
    requires || (a.CompleteEnd? && s.pc[a.pe].caller == c && s.pc[a.pe].denied)
             || (a.DenyEnd? && s.pc[a.pe].caller == c)
    ensures AnswerOf(s, Step(s, a), c) || (a.CompleteEnd? && Step(s, a) == Go(s, a.pe, Denying(c)))
  {
    hide Pack, CountOf, StateOf, EnterStep, PsciStep, RealmStep;
  }

  // What RMI_PSCI_COMPLETE makes of a request, both RECs there and different: the target is switched on exactly when the
  // caller waits for it, it is off and not entered, and the Host does not deny; the caller is answered exactly when it
  // waits and the request fits the target or is denied, and is told what happened; no other REC is touched.
  lemma CompletionIff(s: St, pe: nat)
    requires Enabled(s, CompleteEnd(pe)) && s.pc[pe].caller in s.rec && s.pc[pe].target in s.rec
    requires s.pc[pe].caller != s.pc[pe].target
    ensures var c, t, v := s.pc[pe].caller, s.pc[pe].target, Step(s, CompleteEnd(pe));
            var fits := s.rec[c].realm == s.rec[t].realm && s.rec[c].reqMpidr == s.rec[t].mpidr;
            && v.rec.Keys == s.rec.Keys && (forall at :: at in s.rec && at != c && at != t ==> v.rec[at] == s.rec[at])
            && (v.rec[t].runnable <==> s.rec[t].runnable || (Asks(s, c, t) && !s.pc[pe].denied))
            && v.rec[t] == s.rec[t].(runnable := v.rec[t].runnable)
            && (AnswerOf(s, v, c) <==> s.rec[c].pending && s.rec[c].rc == 0 && (fits || s.pc[pe].denied))
            && (!AnswerOf(s, v, c) ==> v.rec[c] == s.rec[c])
            && (AnswerOf(s, v, c) ==>
                  && (v.rec[c].told == SwitchedOn <==> !s.rec[t].runnable && v.rec[t].runnable)
                  && (v.rec[c].told == AlreadyOn <==> fits && (s.rec[t].runnable || s.rec[t].rc != 0))
                  && (v.rec[c].told == Denied <==> s.pc[pe].denied && !(fits && (s.rec[t].runnable || s.rec[t].rc != 0))))
  {
    hide Pack, CountOf, StateOf, EnterStep, PsciStep, RealmStep;
  }

  // Without the target nothing is switched on, and an answer says so.
  lemma DenialSwitchesNothing(s: St, a: Act)
    requires Enabled(s, a) && (a.DenyEnd? || a.CompleteBegin?)
    ensures var v := Step(s, a);
            && v.rec.Keys == s.rec.Keys
            && forall at :: at in s.rec ==>
                 && v.rec[at].runnable == s.rec[at].runnable && v.rec[at].rc == s.rec[at].rc
                 && (|| v.rec[at] == s.rec[at]
                     || (a.DenyEnd? && at == s.pc[a.pe].caller && AnswerOf(s, v, at) && v.rec[at].told == Denied))
  {
    hide Pack, CountOf, StateOf, EnterStep, PsciStep, RealmStep;
  }

  // Over any run, every request has been answered or is the one that is pending.
  lemma RequestsBalance(s: St, acts: seq<Act>, c: nat)
    requires Booted(s) && Possible(s, acts) && c in After(s, acts).rec
    ensures var r := After(s, acts).rec[c]; r.asked == r.answered + (if r.pending then 1 else 0)
  {
    RunKeepsInv(s, acts);
  }
}
