/**
  * When the cursor of a range command tells the truth, page by page, and what a refused command leaves behind,
  * with other commands running in between.
  */
module GranuleCursor {
  import opened Granules
  import opened GranuleProofs
  import opened GranuleTheorems

  // ---------------------------------------------------------------- runs

  lemma {:induction false} RunConcat(s: St, a: seq<Act>, b: seq<Act>)
    requires Possible(s, a) && Possible(After(s, a), b)
    ensures Possible(s, a + b) && After(s, a + b) == After(After(s, a), b)
    decreases |a|
  {
    if a == [] {
      assert a + b == b;
    } else {
      assert (a + b)[0] == a[0] && (a + b)[1..] == a[1..] + b;
      RunConcat(Step(s, a[0]), a[1..], b);
    }
  }

  lemma RunAppend(s: St, run: seq<Act>, a: Act)
    requires Possible(s, run) && Enabled(After(s, run), a)
    ensures Possible(s, run + [a]) && After(s, run + [a]) == Step(After(s, run), a)
  {
    assert [a][1..] == [];
    RunConcat(s, run, [a]);
  }

  // An action that is not performed for operation h.
  predicate OfOthers(a: Act, h: nat) {
    a.Use? || a.Write? || a.Free? || a.h != h
  }

  ghost predicate AllOfOthers(run: seq<Act>, h: nat) {
    forall i :: 0 <= i < |run| ==> OfOthers(run[i], h)
  }

  lemma OthersKeep(s: St, a: Act, h: nat)
    requires Enabled(s, a) && OfOthers(a, h)
    ensures (h in Step(s, a).sros <==> h in s.sros) && (h in s.sros ==> Step(s, a).sros[h] == s.sros[h])
  {
  }

  // Others neither end nor change operation h.
  lemma {:induction false} OthersKeepSro(s: St, run: seq<Act>, h: nat)
    requires Possible(s, run) && AllOfOthers(run, h)
    ensures (h in After(s, run).sros <==> h in s.sros) && (h in s.sros ==> After(s, run).sros[h] == s.sros[h])
    decreases |run|
  {
    hide Enabled, Step;
    if run != [] {
      OthersKeep(s, run[0], h);
      OthersKeepSro(Step(s, run[0]), run[1..], h);
    }
  }

  // ---------------------------------------------------------------- what can happen to a page

  // What the pages of an operation are to become.
  function Target(o: Sro): (t: Track) {
    if o.DelSro? then Delegated else NonSecure
  }

  // An action that may take page p out of its state: a DELEGATED page is put to use or claimed for undelegation,
  // an NS page is delegated.
  predicate Spoils(a: Act, t: Track, p: nat) {
    if t == Delegated then a == Use(p) || (a.Claim? && In(a.lo, a.lo + a.n, p))
    else a.Delegate? && In(a.lo, a.lo + a.n, p)
  }

  ghost predicate Spares(run: seq<Act>, t: Track, p: nat) {
    forall i :: 0 <= i < |run| ==> !Spoils(run[i], t, p)
  }

  lemma Stays(s: St, a: Act, t: Track, p: nat)
    requires Inv(s) && Enabled(s, a) && (t == Delegated || t == NonSecure) && Is(s, p, t) && !Spoils(a, t, p)
    ensures Is(Step(s, a), p, t)
  {
    forall h ensures !Owner(s, h, p) {}
  }

  lemma {:induction false} Survives(s: St, run: seq<Act>, t: Track, p: nat)
    requires Inv(s) && Possible(s, run) && (t == Delegated || t == NonSecure) && Is(s, p, t) && Spares(run, t, p)
    ensures Is(After(s, run), p, t)
    decreases |run|
  {
    hide Inv, Enabled, Step, Spoils;
    if run != [] {
      Stays(s, run[0], t, p);
      StepKeepsInv(s, run[0]);
      Survives(Step(s, run[0]), run[1..], t, p);
    }
  }

  // ---------------------------------------------------------------- the cursor

  // The pages the cursor of an operation has passed, with those it skipped at the start.
  predicate Passed(o: Sro, p: nat) {
    o.host <= p < if o.coarse then o.lo else o.lo + o.done
  }

  // If the cursor has passed page p, the page is as the operation is to leave it.
  ghost predicate PageDone(s: St, h: nat, p: nat) {
    h in s.sros && (Passed(s.sros[h], p) ==> Is(s, p, Target(s.sros[h])))
  }

  // Operation h is in flight and not being rolled back.
  predicate InPhase(s: St, h: nat) {
    h in s.sros && (s.sros[h].DelSro? ==> !s.sros[h].rolling)
  }

  predicate SameRange(o: Sro, r: Sro) {
    (r.DelSro? <==> o.DelSro?) && r.host == o.host && r.lo == o.lo && r.n == o.n && r.coarse == o.coarse
  }

  // The reply to a continuation of operation a.h.
  function ReplyTo(s: St, a: Act): (r: Reply)
    requires Enabled(s, a) && (a.Continue? || a.Undelegate?)
  {
    if a.Continue? then DelResume(s, a.h, a.k, a.ans).1 else UndResume(s, a.h, a.k, a.ans, a.entry).1
  }

  // A page of the range that an operation has not passed is its own.
  lemma NotPassed(s: St, h: nat, p: nat)
    requires Inv(s) && h in s.sros && s.sros[h].host <= p < s.sros[h].lo + s.sros[h].n && !Passed(s.sros[h], p)
    ensures Owner(s, h, p) && Is(s, p, Partial)
  {
    assert SroOk(s.sros[h]);
    assert Owner(s, h, p);
  }

  // An operation that goes on leaves the pages it has passed alone and publishes those it passes.
  lemma ContinuePasses(s: St, a: Act, p: nat)
    requires Inv(s) && Enabled(s, a) && (a.Continue? || a.Undelegate?) && InPhase(Step(s, a), a.h)
    ensures SameRange(s.sros[a.h], Step(s, a).sros[a.h])
    ensures PageDone(Step(s, a), a.h, p) <==> PageDone(s, a.h, p)
  {
    var o := s.sros[a.h];
    assert SroOk(o);
    if Passed(Step(s, a).sros[a.h], p) && !Passed(o, p) {
      NotPassed(s, a.h, p);
    }
  }

  lemma PageStep(s: St, a: Act, h: nat, p: nat)
    requires Inv(s) && Enabled(s, a) && InPhase(s, h) && InPhase(Step(s, a), h) && PageDone(s, h, p)
    requires !Spoils(a, Target(s.sros[h]), p)
    ensures SameRange(s.sros[h], Step(s, a).sros[h]) && PageDone(Step(s, a), h, p)
  {
    if (a.Continue? || a.Undelegate?) && a.h == h {
      ContinuePasses(s, a, p);
    } else {
      OtherStep(s, a, h, p);
    }
  }

  lemma OtherStep(s: St, a: Act, h: nat, p: nat)
    requires Inv(s) && Enabled(s, a) && InPhase(s, h) && InPhase(Step(s, a), h) && PageDone(s, h, p)
    requires !Spoils(a, Target(s.sros[h]), p) && !((a.Continue? || a.Undelegate?) && a.h == h)
    ensures SameRange(s.sros[h], Step(s, a).sros[h]) && PageDone(Step(s, a), h, p)
  {
    hide Inv;
    assert Passed(Step(s, a).sros[h], p) == Passed(s.sros[h], p) && SameRange(s.sros[h], Step(s, a).sros[h]);
    if Passed(s.sros[h], p) {
      Stays(s, a, Target(s.sros[h]), p);
    }
  }

  // A final SUCCESS tells the truth about a page exactly when the page, if passed before this call, still was as the
  // operation had left it.
  lemma CursorIff(s: St, a: Act, p: nat)
    requires Inv(s) && Enabled(s, a) && (a.Continue? || a.Undelegate?) && ReplyTo(s, a).Success?
    requires s.sros[a.h].host <= p < ReplyTo(s, a).x1
    ensures Is(Step(s, a), p, Target(s.sros[a.h])) <==> PageDone(s, a.h, p)
  {
    var o := s.sros[a.h];
    assert SroOk(o);
    if !Passed(o, p) {
      NotPassed(s, a.h, p);
    }
  }

  // The same for the whole range at once.
  lemma TruthfulIff(s: St, a: Act)
    requires Inv(s) && Enabled(s, a) && (a.Continue? || a.Undelegate?) && ReplyTo(s, a).Success?
    ensures All(Step(s, a).gran, s.sros[a.h].host, ReplyTo(s, a).x1, Target(s.sros[a.h])) <==> forall p :: PageDone(s, a.h, p)
  {
    var o, r, x1 := s.sros[a.h], Step(s, a), ReplyTo(s, a).x1;
    forall p: nat ensures Passed(o, p) ==> o.host <= p < x1 { CursorCovers(s, a, p); }
    forall p: nat | o.host <= p < x1
      ensures Is(r, p, Target(o)) <==> PageDone(s, a.h, p)
    {
      CursorIff(s, a, p);
    }
    hide Inv, Enabled, Step, ReplyTo;
    if All(r.gran, o.host, x1, Target(o)) {
      forall p: nat
        ensures PageDone(s, a.h, p)
      {
        assert Passed(o, p) ==> Is(r, p, Target(o));
      }
    } else {
      var p: nat :| o.host <= p < x1 && !(p in r.gran && r.gran[p] == Target(o));
      assert !Is(r, p, Target(o)) && !PageDone(s, a.h, p);
    }
  }

  lemma CursorCovers(s: St, a: Act, p: nat)
    requires Inv(s) && Enabled(s, a) && (a.Continue? || a.Undelegate?) && ReplyTo(s, a).Success?
    ensures s.sros[a.h].host < ReplyTo(s, a).x1 <= s.sros[a.h].lo + s.sros[a.h].n
    ensures Passed(s.sros[a.h], p) ==> p < ReplyTo(s, a).x1
  {
    assert SroOk(s.sros[a.h]);
  }

  // Operation h is in flight, and not being rolled back, at every point of the run.
  ghost predicate Throughout(s: St, run: seq<Act>, h: nat)
    requires Possible(s, run)
    decreases |run|
  {
    InPhase(s, h) && (run != [] ==> Throughout(Step(s, run[0]), run[1..], h))
  }

  lemma {:induction false} PageRun(s: St, run: seq<Act>, h: nat, p: nat)
    requires Inv(s) && Possible(s, run) && Throughout(s, run, h) && PageDone(s, h, p)
    requires Spares(run, Target(s.sros[h]), p)
    ensures Inv(After(s, run)) && InPhase(After(s, run), h)
    ensures SameRange(s.sros[h], After(s, run).sros[h]) && PageDone(After(s, run), h, p)
    decreases |run|
  {
    hide Inv, Enabled, Step, Spoils, PageDone;
    if run != [] {
      PageStep(s, run[0], h, p);
      StepKeepsInv(s, run[0]);
      PageRun(Step(s, run[0]), run[1..], h, p);
    }
  }

  // Over any run from the first to the last call of a delegation or undelegation: on SUCCESS every page from the
  // address the Host asked for up to the returned one is in the target state, unless somebody else took that very
  // page after it was passed.
  lemma TruthfulCursor(s: St, run: seq<Act>, a: Act, p: nat)
    requires Inv(s) && Possible(s, run) && Enabled(After(s, run), a) && (a.Continue? || a.Undelegate?)
    requires Throughout(s, run, a.h) && PageDone(s, a.h, p) && Spares(run, Target(s.sros[a.h]), p)
    requires ReplyTo(After(s, run), a).Success? && s.sros[a.h].host <= p < ReplyTo(After(s, run), a).x1
    ensures Is(Step(After(s, run), a), p, Target(s.sros[a.h]))
  {
    hide Inv, Enabled, Step, PageDone;
    PageRun(s, run, a.h, p);
    CursorIff(After(s, run), a, p);
  }

  // ---------------------------------------------------------------- when somebody does

  // From boot: page 4 is delegated; a delegation from page 4 skips it and is left unfinished at page 5; page 4 is put
  // to use; the delegation ends with SUCCESS up to page 6.
  lemma SkippedPageUsed()
    ensures var run := [Delegate(1, 4, 4, 1, false, 1, Ok), Delegate(7, 4, 5, 1, false, 0, InProgress), Use(4)];
            && Init(TWO_PAGES) && Possible(TWO_PAGES, run) && Enabled(After(TWO_PAGES, run), Continue(7, 1, Ok))
            && ReplyTo(After(TWO_PAGES, run), Continue(7, 1, Ok)) == Success(6)
            && Is(Step(After(TWO_PAGES, run), Continue(7, 1, Ok)), 4, InUse)
  {
    var a, b, c := Delegate(1, 4, 4, 1, false, 1, Ok), Delegate(7, 4, 5, 1, false, 0, InProgress), Use(4);
    hide Enabled, Step, ReplyTo, Is, Possible, After;
    UsedSteps();
    Three(TWO_PAGES, a, b, c);
  }

  const TWO_PAGES := St(map[4 := NonSecure, 5 := NonSecure], {}, {}, {}, map[])

  lemma UsedSteps()
    ensures var a, b, c := Delegate(1, 4, 4, 1, false, 1, Ok), Delegate(7, 4, 5, 1, false, 0, InProgress), Use(4);
            && Enabled(TWO_PAGES, a) && Enabled(Step(TWO_PAGES, a), b) && Enabled(Step(Step(TWO_PAGES, a), b), c)
            && var t := Step(Step(Step(TWO_PAGES, a), b), c);
            && Enabled(t, Continue(7, 1, Ok)) && ReplyTo(t, Continue(7, 1, Ok)) == Success(6)
            && Is(Step(t, Continue(7, 1, Ok)), 4, InUse)
  {
  }

  // From boot: page 5 is delegated and an undelegation from page 4 skips page 4; page 4 is delegated before the
  // undelegation ends with SUCCESS up to page 6.
  lemma SkippedPageDelegated()
    ensures var run := [Delegate(1, 5, 5, 1, false, 1, Ok), Claim(7, 4, 5, 1, false, false),
                        Delegate(2, 4, 4, 1, false, 1, Ok), Sanitize(7)];
            && Init(TWO_PAGES) && Possible(TWO_PAGES, run) && Enabled(After(TWO_PAGES, run), Undelegate(7, 1, Ok, false))
            && ReplyTo(After(TWO_PAGES, run), Undelegate(7, 1, Ok, false)) == Success(6)
            && Is(Step(After(TWO_PAGES, run), Undelegate(7, 1, Ok, false)), 4, Delegated)
  {
    hide Enabled, Step, ReplyTo, Is, Possible, After;
    var a, b, c := Delegate(1, 5, 5, 1, false, 1, Ok), Claim(7, 4, 5, 1, false, false), Delegate(2, 4, 4, 1, false, 1, Ok);
    DelegatedSteps();
    Three(TWO_PAGES, a, b, c);
    RunAppend(TWO_PAGES, [a, b, c], Sanitize(7));
    assert [a, b, c] + [Sanitize(7)] == [a, b, c, Sanitize(7)];
  }

  lemma DelegatedSteps()
    ensures var a, b := Delegate(1, 5, 5, 1, false, 1, Ok), Claim(7, 4, 5, 1, false, false);
            var c := Delegate(2, 4, 4, 1, false, 1, Ok);
            && Enabled(TWO_PAGES, a) && Enabled(Step(TWO_PAGES, a), b) && Enabled(Step(Step(TWO_PAGES, a), b), c)
            && Enabled(Step(Step(Step(TWO_PAGES, a), b), c), Sanitize(7))
            && var t := Step(Step(Step(Step(TWO_PAGES, a), b), c), Sanitize(7));
            && Enabled(t, Undelegate(7, 1, Ok, false)) && ReplyTo(t, Undelegate(7, 1, Ok, false)) == Success(6)
            && Is(Step(t, Undelegate(7, 1, Ok, false)), 4, Delegated)
  {
  }

  // From boot: page 5 is delegated, an undelegation from page 4 skips page 4, and EL3 is busy on the first call:
  // SUCCESS at page 5, where it began.
  lemma NoStrictProgress()
    ensures var run := [Delegate(1, 5, 5, 1, false, 1, Ok), Claim(7, 4, 5, 1, false, false), Sanitize(7)];
            && Init(TWO_PAGES) && Possible(TWO_PAGES, run) && Enabled(After(TWO_PAGES, run), Undelegate(7, 0, Busy, true))
            && ReplyTo(After(TWO_PAGES, run), Undelegate(7, 0, Busy, true)) == Success(5)
  {
    hide Enabled, Step, ReplyTo, Is, Possible, After;
    BusySteps();
    Three(TWO_PAGES, Delegate(1, 5, 5, 1, false, 1, Ok), Claim(7, 4, 5, 1, false, false), Sanitize(7));
  }

  lemma BusySteps()
    ensures var a, b, c := Delegate(1, 5, 5, 1, false, 1, Ok), Claim(7, 4, 5, 1, false, false), Sanitize(7);
            && Enabled(TWO_PAGES, a) && Enabled(Step(TWO_PAGES, a), b) && Enabled(Step(Step(TWO_PAGES, a), b), c)
            && var t := Step(Step(Step(TWO_PAGES, a), b), c);
            Enabled(t, Undelegate(7, 0, Busy, true)) && ReplyTo(t, Undelegate(7, 0, Busy, true)) == Success(5)
  {
  }

  lemma Three(s: St, a: Act, b: Act, c: Act)
    requires Enabled(s, a) && Enabled(Step(s, a), b) && Enabled(Step(Step(s, a), b), c)
    ensures Possible(s, [a, b, c]) && After(s, [a, b, c]) == Step(Step(Step(s, a), b), c)
  {
    hide Enabled, Step;
    var run := [];
    assert Possible(s, run) && After(s, run) == s;
    RunAppend(s, [], a);
    RunAppend(s, [] + [a], b);
    RunAppend(s, [] + [a] + [b], c);
    assert [] + [a] + [b] + [c] == [a, b, c];
  }

  // ---------------------------------------------------------------- a refused undelegation

  // State a is state b with an undelegation h on top that has moved nothing: its pages are PARTIAL instead of
  // DELEGATED, and some of them may be scrubbed.
  ghost predicate OnTop(a: St, b: St, h: nat) {
    && h in a.sros && a.sros[h].UndSro? && a.sros[h].done == 0 && !a.sros[h].el3 && b.sros == a.sros - {h}
    && var o := a.sros[h];
    && All(b.gran, o.lo, o.lo + o.n, Delegated) && a.gran == Put(b.gran, o.lo, o.lo + o.n, Partial)
    && a.realm == b.realm && a.device == b.device && a.dirty <= b.dirty
    && forall p :: p in b.dirty && p !in a.dirty ==> In(o.lo, o.lo + o.n, p)
  }

  lemma ClaimIsOnTop(s: St, h: nat, host: nat, lo: nat, n: nat, coarse: bool, dev: bool)
    requires Enabled(s, Claim(h, host, lo, n, coarse, dev))
    ensures OnTop(Step(s, Claim(h, host, lo, n, coarse, dev)), s, h)
  {
    assert s.sros[h := UndSro(host, lo, n, coarse, dev, 0, 0, false)] - {h} == s.sros;
  }

  lemma ScrubStaysOnTop(a: St, b: St, h: nat)
    requires OnTop(a, b, h) && Enabled(a, Sanitize(h))
    ensures OnTop(Step(a, Sanitize(h)), b, h)
  {
    assert Step(a, Sanitize(h)).sros - {h} == a.sros - {h};
  }

  // Two operations own different pages.
  function OwnLo(o: Sro): (p: nat) {
    if o.coarse then o.lo else o.lo + o.done
  }

  lemma SrosApart(s: St, x: nat, h: nat)
    requires Inv(s) && x in s.sros && h in s.sros && x != h
    ensures OwnLo(s.sros[x]) < s.sros[x].lo + s.sros[x].n && OwnLo(s.sros[h]) < s.sros[h].lo + s.sros[h].n
    ensures s.sros[x].lo + s.sros[x].n <= OwnLo(s.sros[h]) || s.sros[h].lo + s.sros[h].n <= OwnLo(s.sros[x])
  {
    var o, q := s.sros[x], s.sros[h];
    assert SroOk(o) && SroOk(q);
    var p := if OwnLo(o) < OwnLo(q) then OwnLo(q) else OwnLo(o);
    assert Owner(s, x, p) && Owner(s, h, p) ==> x == h;
  }

  // What others do looks the same without the operation on top.
  lemma OthersOnTop(a: St, b: St, act: Act, h: nat)
    requires Inv(a) && OnTop(a, b, h) && Enabled(a, act) && OfOthers(act, h)
    ensures Enabled(b, act) && OnTop(Step(a, act), Step(b, act), h)
  {
    if act.Use? || act.Write? || act.Free? {
      PageOnTop(a, b, act, h);
    } else {
      WorkApart(a, act, h);
      EnabledBelow(a, b, act, h);
      WorkOnTop(a, b, act, h);
    }
  }

  lemma PageOnTop(a: St, b: St, act: Act, h: nat)
    requires OnTop(a, b, h) && Enabled(a, act) && (act.Use? || act.Write? || act.Free?)
    ensures Enabled(b, act) && OnTop(Step(a, act), Step(b, act), h)
  {
    var o := a.sros[h];
    assert Step(a, act).gran == Put(Step(b, act).gran, o.lo, o.lo + o.n, Partial);
  }

  // The first page and the end of the pages an action of an operation works on.
  function WorkLo(s: St, act: Act): (p: nat)
    requires Enabled(s, act) && !act.Use? && !act.Write? && !act.Free?
  {
    if act.Delegate? || act.Claim? then act.lo else OwnLo(s.sros[act.h])
  }

  function WorkHi(s: St, act: Act): (p: nat)
    requires Enabled(s, act) && !act.Use? && !act.Write? && !act.Free?
  {
    if act.Delegate? || act.Claim? then act.lo + act.n else s.sros[act.h].lo + s.sros[act.h].n
  }

  lemma WorkApart(s: St, act: Act, h: nat)
    requires Inv(s) && Enabled(s, act) && OfOthers(act, h) && !act.Use? && !act.Write? && !act.Free? && h in s.sros
    ensures WorkHi(s, act) <= OwnLo(s.sros[h]) || s.sros[h].lo + s.sros[h].n <= WorkLo(s, act)
  {
    if act.Delegate? || act.Claim? {
      var o := s.sros[h];
      assert SroOk(o);
      var p := if OwnLo(o) < act.lo then act.lo else OwnLo(o);
      assert Owner(s, h, p) ==> s.gran[p] == Partial;
    } else {
      SrosApart(s, act.h, h);
    }
  }

  lemma WorkIsLocalNew(s: St, act: Act, p: nat)
    requires Enabled(s, act) && (act.Delegate? || act.Claim? || act.Sanitize?)
    ensures Step(s, act).gran.Keys == s.gran.Keys
    ensures p in s.gran && !In(WorkLo(s, act), WorkHi(s, act), p) ==> Step(s, act).gran[p] == s.gran[p]
  {
    hide All, DelResume, RollResume, UndResume;
  }

  lemma WorkIsLocalDel(s: St, act: Act, p: nat)
    requires Enabled(s, act) && (act.Continue? || act.Rollback?) && SroOk(s.sros[act.h])
    ensures Step(s, act).gran.Keys == s.gran.Keys
    ensures p in s.gran && !In(WorkLo(s, act), WorkHi(s, act), p) ==> Step(s, act).gran[p] == s.gran[p]
  {
    hide All, DelStart, UndResume;
  }

  lemma WorkIsLocal(s: St, act: Act, p: nat)
    requires Enabled(s, act) && !act.Use? && !act.Write? && !act.Free? && (act.h in s.sros ==> SroOk(s.sros[act.h]))
    ensures Step(s, act).gran.Keys == s.gran.Keys
    ensures p in s.gran && !In(WorkLo(s, act), WorkHi(s, act), p) ==> Step(s, act).gran[p] == s.gran[p]
  {
    hide All, DelStart, DelResume, RollResume;
    if act.Delegate? || act.Claim? || act.Sanitize? {
      WorkIsLocalNew(s, act, p);
    } else if act.Continue? || act.Rollback? {
      WorkIsLocalDel(s, act, p);
    }
  }

  lemma WorkIsSameNew(a: St, b: St, act: Act, p: nat)
    requires Enabled(a, act) && Enabled(b, act) && (act.Delegate? || act.Claim?)
    requires act.h in a.sros ==> act.h in b.sros && a.sros[act.h] == b.sros[act.h]
    requires p in a.gran && p in b.gran && a.gran[p] == b.gran[p]
    ensures p in Step(a, act).gran && p in Step(b, act).gran && Step(a, act).gran[p] == Step(b, act).gran[p]
  {
    hide All, Legal, DelResume, RollResume, UndResume;
  }

  lemma WorkIsSameDel(a: St, b: St, act: Act, p: nat)
    requires Enabled(a, act) && Enabled(b, act) && (act.Continue?)
    requires act.h in a.sros ==> act.h in b.sros && a.sros[act.h] == b.sros[act.h]
    requires p in a.gran && p in b.gran && a.gran[p] == b.gran[p]
    ensures p in Step(a, act).gran && p in Step(b, act).gran && Step(a, act).gran[p] == Step(b, act).gran[p]
  {
    hide All, Legal, DelStart, RollResume, UndResume;
  }

  lemma WorkIsSameRoll(a: St, b: St, act: Act, p: nat)
    requires Enabled(a, act) && Enabled(b, act) && (act.Rollback? || act.Sanitize?)
    requires act.h in a.sros ==> act.h in b.sros && a.sros[act.h] == b.sros[act.h]
    requires p in a.gran && p in b.gran && a.gran[p] == b.gran[p]
    ensures p in Step(a, act).gran && p in Step(b, act).gran && Step(a, act).gran[p] == Step(b, act).gran[p]
  {
    hide All, Legal, DelStart, DelResume, UndResume;
  }

  lemma WorkIsSameUnd(a: St, b: St, act: Act, p: nat)
    requires Enabled(a, act) && Enabled(b, act) && (act.Undelegate?)
    requires act.h in a.sros ==> act.h in b.sros && a.sros[act.h] == b.sros[act.h]
    requires p in a.gran && p in b.gran && a.gran[p] == b.gran[p]
    ensures p in Step(a, act).gran && p in Step(b, act).gran && Step(a, act).gran[p] == Step(b, act).gran[p]
  {
    hide All, Legal, DelStart, DelResume, RollResume;
  }

  lemma WorkIsSame(a: St, b: St, act: Act, p: nat)
    requires Enabled(a, act) && Enabled(b, act) && !act.Use? && !act.Write? && !act.Free?
    requires act.h in a.sros ==> act.h in b.sros && a.sros[act.h] == b.sros[act.h]
    requires p in a.gran && p in b.gran && a.gran[p] == b.gran[p]
    ensures p in Step(a, act).gran && p in Step(b, act).gran && Step(a, act).gran[p] == Step(b, act).gran[p]
  {
    hide Enabled, Step;
    if act.Delegate? || act.Claim? {
      WorkIsSameNew(a, b, act, p);
    } else if act.Continue? {
      WorkIsSameDel(a, b, act, p);
    } else if act.Undelegate? {
      WorkIsSameUnd(a, b, act, p);
    } else {
      WorkIsSameRoll(a, b, act, p);
    }
  }

  lemma EnabledBelow(a: St, b: St, act: Act, h: nat)
    requires OnTop(a, b, h) && Enabled(a, act) && OfOthers(act, h) && !act.Use? && !act.Write? && !act.Free?
    requires WorkHi(a, act) <= a.sros[h].lo || a.sros[h].lo + a.sros[h].n <= WorkLo(a, act)
    ensures Enabled(b, act) && WorkLo(b, act) == WorkLo(a, act) && WorkHi(b, act) == WorkHi(a, act)
    ensures act.h in a.sros ==> act.h in b.sros && a.sros[act.h] == b.sros[act.h]
  {
    if act.Delegate? || act.Claim? {
      forall p | act.lo <= p < act.lo + act.n ensures p in b.gran && b.gran[p] == a.gran[p] { assert p in a.gran; }
    }
  }

  lemma WorkOnTop(a: St, b: St, act: Act, h: nat)
    requires OnTop(a, b, h) && Enabled(a, act) && Enabled(b, act) && OfOthers(act, h) && !act.Use? && !act.Write? && !act.Free?
    requires WorkLo(b, act) == WorkLo(a, act) && WorkHi(b, act) == WorkHi(a, act)
    requires WorkHi(a, act) <= a.sros[h].lo || a.sros[h].lo + a.sros[h].n <= WorkLo(a, act)
    requires act.h in a.sros ==> act.h in b.sros && a.sros[act.h] == b.sros[act.h] && SroOk(a.sros[act.h])
    ensures OnTop(Step(a, act), Step(b, act), h)
  {
    var o, a', b' := a.sros[h], Step(a, act), Step(b, act);
    RestOnTop(a, b, act, h);
    forall p | p in a.gran
      ensures p in a'.gran && p in b'.gran && a'.gran[p] == if In(o.lo, o.lo + o.n, p) then Partial else b'.gran[p]
      ensures In(o.lo, o.lo + o.n, p) ==> b'.gran[p] == Delegated
    {
      WorkIsLocal(a, act, p);
      WorkIsLocal(b, act, p);
      if !In(o.lo, o.lo + o.n, p) {
        WorkIsSame(a, b, act, p);
      }
    }
    WorkIsLocal(a, act, 0);
    WorkIsLocal(b, act, 0);
    hide Step, Enabled;
    assert a'.gran == Put(b'.gran, o.lo, o.lo + o.n, Partial);
    forall p | o.lo <= p < o.lo + o.n ensures p in b'.gran && b'.gran[p] == Delegated { assert p in b.gran; }
  }

  // An action of an operation depends on that operation and on the state of its pages only.
  lemma SameEffectNew(a: St, b: St, act: Act)
    requires Enabled(a, act) && Enabled(b, act) && (act.Delegate? || act.Claim?)
    requires act.h in a.sros ==> act.h in b.sros && a.sros[act.h] == b.sros[act.h]
    requires a.realm == b.realm
    ensures var a', b' := Step(a, act), Step(b, act);
            && (act.h in a'.sros <==> act.h in b'.sros) && (act.h in a'.sros ==> a'.sros[act.h] == b'.sros[act.h])
            && a'.realm == b'.realm
  {
    hide All, Put, Legal, DelResume, RollResume, UndResume;
  }

  lemma SameEffectDel(a: St, b: St, act: Act)
    requires Enabled(a, act) && Enabled(b, act) && (act.Continue?)
    requires act.h in a.sros ==> act.h in b.sros && a.sros[act.h] == b.sros[act.h]
    requires a.realm == b.realm
    ensures var a', b' := Step(a, act), Step(b, act);
            && (act.h in a'.sros <==> act.h in b'.sros) && (act.h in a'.sros ==> a'.sros[act.h] == b'.sros[act.h])
            && a'.realm == b'.realm
  {
    hide All, Put, Legal, DelStart, RollResume, UndResume;
  }

  lemma SameEffectRoll(a: St, b: St, act: Act)
    requires Enabled(a, act) && Enabled(b, act) && (act.Rollback? || act.Sanitize?)
    requires act.h in a.sros ==> act.h in b.sros && a.sros[act.h] == b.sros[act.h]
    requires a.realm == b.realm
    ensures var a', b' := Step(a, act), Step(b, act);
            && (act.h in a'.sros <==> act.h in b'.sros) && (act.h in a'.sros ==> a'.sros[act.h] == b'.sros[act.h])
            && a'.realm == b'.realm
  {
    hide All, Put, Legal, DelStart, DelResume, UndResume;
  }

  lemma SameEffectUnd(a: St, b: St, act: Act)
    requires Enabled(a, act) && Enabled(b, act) && (act.Undelegate?)
    requires act.h in a.sros ==> act.h in b.sros && a.sros[act.h] == b.sros[act.h]
    requires a.realm == b.realm
    ensures var a', b' := Step(a, act), Step(b, act);
            && (act.h in a'.sros <==> act.h in b'.sros) && (act.h in a'.sros ==> a'.sros[act.h] == b'.sros[act.h])
            && a'.realm == b'.realm
  {
    hide All, Put, Legal, DelStart, DelResume, RollResume;
  }

  lemma SameEffect(a: St, b: St, act: Act)
    requires Enabled(a, act) && Enabled(b, act) && !act.Use? && !act.Write? && !act.Free?
    requires act.h in a.sros ==> act.h in b.sros && a.sros[act.h] == b.sros[act.h]
    requires a.realm == b.realm
    ensures var a', b' := Step(a, act), Step(b, act);
            && (act.h in a'.sros <==> act.h in b'.sros) && (act.h in a'.sros ==> a'.sros[act.h] == b'.sros[act.h])
            && a'.realm == b'.realm
  {
    hide Enabled, Step;
    if act.Delegate? || act.Claim? {
      SameEffectNew(a, b, act);
    } else if act.Continue? {
      SameEffectDel(a, b, act);
    } else if act.Undelegate? {
      SameEffectUnd(a, b, act);
    } else {
      SameEffectRoll(a, b, act);
    }
  }

  // It leaves the other operations alone, and scrubs at most one page.
  lemma OwnEffect(s: St, act: Act)
    requires Enabled(s, act) && !act.Use? && !act.Write? && !act.Free?
    ensures var t := Step(s, act);
            && t.device == s.device && t.sros - {act.h} == s.sros - {act.h}
            && t.dirty == if act.Sanitize? then s.dirty - {s.sros[act.h].lo + s.sros[act.h].clean} else s.dirty
  {
    hide All, Put;
    var t := Step(s, act);
    assert t.sros - {act.h} == s.sros - {act.h};
  }

  lemma RestOnTop(a: St, b: St, act: Act, h: nat)
    requires OnTop(a, b, h) && Enabled(a, act) && Enabled(b, act) && OfOthers(act, h) && !act.Use? && !act.Write? && !act.Free?
    requires act.h in a.sros ==> act.h in b.sros && a.sros[act.h] == b.sros[act.h]
    ensures var o, a', b' := a.sros[h], Step(a, act), Step(b, act);
            && h in a'.sros && a'.sros[h] == o && b'.sros == a'.sros - {h}
            && a'.realm == b'.realm && a'.device == b'.device && a'.dirty <= b'.dirty
            && forall p :: p in b'.dirty && p !in a'.dirty ==> In(o.lo, o.lo + o.n, p)
  {
    SameEffect(a, b, act);
    OwnEffect(a, act);
    OwnEffect(b, act);
    OthersKeep(a, act, h);
    hide All, Put, Step, Enabled;
    var a', b' := Step(a, act), Step(b, act);
    forall x
      ensures x in b'.sros <==> x in a'.sros && x != h
      ensures x in b'.sros ==> b'.sros[x] == a'.sros[x]
    {
      assert x != act.h ==> (x in b'.sros - {act.h} <==> x in b'.sros) && (x in a'.sros - {act.h} <==> x in a'.sros);
    }
    assert b'.sros == a'.sros - {h};
  }

  // The actions of a run that are not performed for h.
  function Without(run: seq<Act>, h: nat): (r: seq<Act>) {
    if run == [] then [] else (if OfOthers(run[0], h) then [run[0]] else []) + Without(run[1..], h)
  }

  ghost predicate OnlyScrubs(run: seq<Act>, h: nat) {
    forall i :: 0 <= i < |run| ==> OfOthers(run[i], h) || run[i] == Sanitize(h)
  }

  lemma {:induction false} RunOnTop(a: St, b: St, run: seq<Act>, h: nat)
    requires Inv(a) && OnTop(a, b, h) && Possible(a, run) && OnlyScrubs(run, h)
    ensures Possible(b, Without(run, h)) && OnTop(After(a, run), After(b, Without(run, h)), h)
    decreases |run|
  {
    hide Inv, Enabled, Step, OnTop;
    if run != [] {
      StepKeepsInv(a, run[0]);
      if OfOthers(run[0], h) {
        OthersOnTop(a, b, run[0], h);
        RunOnTop(Step(a, run[0]), Step(b, run[0]), run[1..], h);
        assert Without(run, h)[1..] == Without(run[1..], h);
      } else {
        ScrubStaysOnTop(a, b, h);
        RunOnTop(Step(a, run[0]), b, run[1..], h);
        assert Without(run, h) == Without(run[1..], h);
      }
    }
  }

  // A refusal puts everything back but the scrubbed contents.
  lemma RefusalUncovers(a: St, b: St, h: nat, k: nat, ans: Answer, entry: bool)
    requires OnTop(a, b, h) && Enabled(a, Undelegate(h, k, ans, entry)) && UndResume(a, h, k, ans, entry).1.Error?
    ensures UndResume(a, h, k, ans, entry).0 == b.(dirty := a.dirty)
  {
    var o := a.sros[h];
    var r := UndResume(a, h, k, ans, entry).0;
    assert r.gran == b.gran;
    assert r.realm == b.realm;
  }

  // A refused undelegation is invisible to everybody else: the run from its claim to its refusal, with everything
  // that happened in between, ends in the state in which it would have ended had the command never been issued,
  // apart from contents that were scrubbed.
  lemma RefusalIsInvisible(s: St, claim: Act, run: seq<Act>, k: nat, ans: Answer, entry: bool)
    requires Inv(s) && claim.Claim? && Enabled(s, claim) && Possible(Step(s, claim), run) && OnlyScrubs(run, claim.h)
    requires var t := After(Step(s, claim), run);
             Enabled(t, Undelegate(claim.h, k, ans, entry)) && UndResume(t, claim.h, k, ans, entry).1.Error?
    ensures Possible(s, Without(run, claim.h))
    ensures var t := After(Step(s, claim), run);
            UndResume(t, claim.h, k, ans, entry).0 == After(s, Without(run, claim.h)).(dirty := t.dirty)
  {
    hide Inv, Enabled, Step, OnTop, UndResume;
    ClaimIsOnTop(s, claim.h, claim.host, claim.lo, claim.n, claim.coarse, claim.dev);
    StepKeepsInv(s, claim);
    RunOnTop(Step(s, claim), s, run, claim.h);
    RefusalUncovers(After(Step(s, claim), run), After(s, Without(run, claim.h)), claim.h, k, ans, entry);
  }
}
