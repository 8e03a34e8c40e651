/**
  * What every step of the Realm and REC protocol keeps.
  */
module LifecycleProofs {
  import opened Basics
  import opened Lifecycle

  // The processing elements between the increment and the decrement of the count of Realm r.
  function Inside(s: St, r: nat): (pes: set<nat>) {
    set pe | pe in s.pc && IsInside(s.pc[pe]) && s.pc[pe].rec in s.rec && s.rec[s.pc[pe].rec].realm == r
  }

  // The word is a (state, count) record whose count is the number of processing elements inside.
  ghost predicate WordInv(s: St) {
    && |s.pc| < COUNT_LIMIT
    && forall r :: r in s.word ==> s.word[r] < WORD_LIMIT && CountOf(s.word[r]) == |Inside(s, r)|
  }

  // Nobody is inside a Realm that is NEW or ZOMBIE.
  ghost predicate ZombieInv(s: St) {
    forall r :: r in s.word && (StateOf(s.word[r]) == NEW || StateOf(s.word[r]) == ZOMBIE) ==> Inside(s, r) == {}
  }

  // A processing element in a REC holds its only reference.
  ghost predicate RunnerInv(s: St) {
    && (forall pe :: pe in s.pc && InRec(s.pc[pe]) ==>
          s.pc[pe].rec in s.rec && s.rec[s.pc[pe].rec].rc == 1 && s.rec[s.pc[pe].rec].realm in s.word)
    && (forall pe, pe' ::
          (pe in s.pc && pe' in s.pc && InRec(s.pc[pe]) && InRec(s.pc[pe']) && s.pc[pe].rec == s.pc[pe'].rec) ==> pe == pe')
    && (forall at :: at in s.rec ==> s.rec[at].rc <= 1 && s.rec[at].realm in s.word)
    && (forall at :: at in s.rec && s.rec[at].rc == 1 ==> exists pe :: Holds(s, pe, at))
  }

  predicate Holds(s: St, pe: nat, at: nat) {
    pe in s.pc && InRec(s.pc[pe]) && s.pc[pe].rec == at
  }

  // A REC with an outstanding request does not run, and one that is off is on its way out.
  predicate FitToRun(s: St, c: Pc) {
    InRec(c) && c.rec in s.rec ==>
      && (IsRunning(c) ==> !s.rec[c.rec].pending)
      && (c.Exiting? || c.Leaving? || s.rec[c.rec].runnable)
  }

  // Requests and answers balance.
  ghost predicate RequestInv(s: St) {
    && (forall pe :: pe in s.pc ==> FitToRun(s, s.pc[pe]))
    && (forall at :: at in s.rec ==> Open(s.rec[at]) == 0)
  }

  predicate Owns(s: St, pe: nat, r: nat) {
    r in s.lock && s.lock[r] == pe && r in s.word
  }

  // A processing element inside a state change holds the RD lock, and what it has seen of the state still holds.
  predicate LockOk(s: St, pe: nat)
    requires pe in s.pc
  {
    match s.pc[pe]
    case IncLoaded(_, seen) => seen < WORD_LIMIT && StateOf(seen) == ACTIVE
    case OffLocked(rec) => rec in s.rec && Owns(s, pe, s.rec[rec].realm)
    case OffLoaded(rec, seen) => rec in s.rec && Owns(s, pe, s.rec[rec].realm) && seen < WORD_LIMIT
    case ActLocked(r) => Owns(s, pe, r) && StateOf(s.word[r]) == NEW
    case ActLoaded(r, seen) => Owns(s, pe, r) && StateOf(s.word[r]) == NEW && seen < WORD_LIMIT && StateOf(seen) == NEW
    case TermLocked(r) => Owns(s, pe, r)
    case TermLoaded(r, state) => Owns(s, pe, r) && state == StateOf(s.word[r])
    case _ => true
  }

  ghost predicate LockInv(s: St) {
    forall pe :: pe in s.pc ==> LockOk(s, pe)
  }

  ghost predicate Inv(s: St) {
    WordInv(s) && ZombieInv(s) && RunnerInv(s) && RequestInv(s) && LockInv(s)
  }

  // ---------------------------------------------------------------- who is inside

  // Every REC that was there is there still, in the same Realm.
  predicate RecsStay(s: St, t: St) {
    forall at :: at in s.rec ==> at in t.rec && t.rec[at].realm == s.rec[at].realm
  }

  // The change in the number of processing elements inside r when only pe moves.
  function Delta(s: St, t: St, pe: nat, r: nat): (d: int) {
    (if pe in Inside(t, r) then 1 else 0) - (if pe in Inside(s, r) then 1 else 0)
  }

  // One processing element moves; everybody else stays where they are.
  ghost predicate OneMoves(s: St, t: St, pe: nat) {
    && pe in s.pc && pe in t.pc && t.pc == s.pc[pe := t.pc[pe]] && RecsStay(s, t)
    && (IsInside(t.pc[pe]) ==> t.pc[pe].rec in s.rec)
  }

  lemma InsideMove(s: St, t: St, pe: nat, r: nat)
    requires RunnerInv(s) && OneMoves(s, t, pe)
    ensures |Inside(t, r)| == |Inside(s, r)| + Delta(s, t, pe, r)
  {
    forall x | x != pe
      ensures x in Inside(t, r) <==> x in Inside(s, r)
    {
    }
    OneApart(Inside(s, r), Inside(t, r), pe);
  }

  // Where pe is after its move.
  lemma MoverInside(s: St, t: St, pe: nat, r: nat)
    requires RunnerInv(s) && OneMoves(s, t, pe)
    ensures pe in Inside(t, r) <==> IsInside(t.pc[pe]) && s.rec[t.pc[pe].rec].realm == r
    ensures pe in Inside(s, r) <==> IsInside(s.pc[pe]) && s.rec[s.pc[pe].rec].realm == r
  {
  }

  // The word of r after a step of pe: its count moves with the number inside.
  predicate WordFollows(s: St, t: St, pe: nat, r: nat)
    requires r in s.word && r in t.word
  {
    && t.word[r] < WORD_LIMIT && CountOf(t.word[r]) == CountOf(s.word[r]) + Delta(s, t, pe, r)
    && (StateOf(t.word[r]) == NEW || StateOf(t.word[r]) == ZOMBIE ==> CountOf(t.word[r]) == 0)
  }

  lemma WordKept(s: St, t: St, pe: nat)
    requires WordInv(s) && RunnerInv(s) && OneMoves(s, t, pe) && t.word.Keys == s.word.Keys
    requires forall r :: r in s.word ==> WordFollows(s, t, pe, r)
    ensures WordInv(t) && ZombieInv(t)
  {
    assert t.pc.Keys == s.pc.Keys;
    assert |t.pc.Keys| == |t.pc| && |s.pc.Keys| == |s.pc|;
    forall r | r in t.word
      ensures CountOf(t.word[r]) == |Inside(t, r)|
    {
      InsideMove(s, t, pe, r);
      assert WordFollows(s, t, pe, r);
    }
  }

  // A word that is not touched follows when pe crosses neither the increment nor the decrement of its Realm.
  lemma WordUntouched(s: St, t: St, pe: nat, r: nat)
    requires WordInv(s) && ZombieInv(s) && RunnerInv(s) && OneMoves(s, t, pe)
    requires r in s.word && r in t.word && t.word[r] == s.word[r]
    requires IsInside(t.pc[pe]) == IsInside(s.pc[pe]) || (IsInside(s.pc[pe]) && s.rec[s.pc[pe].rec].realm != r)
             || (IsInside(t.pc[pe]) && s.rec[t.pc[pe].rec].realm != r)
    requires IsInside(t.pc[pe]) && IsInside(s.pc[pe]) ==> t.pc[pe].rec == s.pc[pe].rec
    ensures WordFollows(s, t, pe, r)
  {
    MoverInside(s, t, pe, r);
    assert Inside(s, r) == {} ==> |Inside(s, r)| == 0;
  }

  // ---------------------------------------------------------------- who holds what

  // Nobody claims or returns a reference: the same processing elements are in the same RECs.
  ghost predicate SameClaims(s: St, t: St) {
    && t.pc.Keys == s.pc.Keys && s.word.Keys <= t.word.Keys
    && (forall pe :: pe in s.pc ==> InRec(t.pc[pe]) == InRec(s.pc[pe]) && (InRec(s.pc[pe]) ==> t.pc[pe].rec == s.pc[pe].rec))
    && (forall at :: at in t.rec && at in s.rec ==> t.rec[at].rc == s.rec[at].rc && t.rec[at].realm == s.rec[at].realm)
    && (forall at :: at in t.rec && at !in s.rec ==> t.rec[at].rc == 0 && t.rec[at].realm in t.word)
    && (forall at :: at in s.rec && at !in t.rec ==> s.rec[at].rc == 0)
  }

  lemma SameClaimsKeepRunner(s: St, t: St)
    requires RunnerInv(s) && SameClaims(s, t)
    ensures RunnerInv(t)
  {
    forall at | at in t.rec && t.rec[at].rc == 1
      ensures exists pe :: Holds(t, pe, at)
    {
      var pe :| Holds(s, pe, at);
      assert Holds(t, pe, at);
    }
  }

  // Whoever does not move keeps its lock, and the state of a Realm that is locked by somebody else stays.
  predicate LockStays(s: St, t: St, movers: set<nat>, r: nat)
    requires r in s.word
  {
    && r in t.word
    && (r in s.lock && s.lock[r] !in movers ==>
          r in t.lock && t.lock[r] == s.lock[r] && StateOf(t.word[r]) == StateOf(s.word[r]))
  }

  // The RECs that somebody is in stay, in their Realms.
  predicate HeldStay(s: St, t: St) {
    forall at :: at in s.rec && s.rec[at].rc == 1 ==> at in t.rec && t.rec[at].realm == s.rec[at].realm
  }

  // A step of pe that leaves the requests of every other REC alone.
  lemma RequestsKept(s: St, t: St, pe: nat)
    requires RunnerInv(s) && RequestInv(s) && pe in s.pc && pe in t.pc && t.pc == s.pc[pe := t.pc[pe]] && FitToRun(t, t.pc[pe])
    requires t.rec.Keys == s.rec.Keys && forall at :: at in s.rec ==> Open(t.rec[at]) == Open(s.rec[at])
    requires forall at :: at in s.rec && !(InRec(s.pc[pe]) && s.pc[pe].rec == at) ==>
               t.rec[at].pending == s.rec[at].pending && t.rec[at].runnable == s.rec[at].runnable
    ensures RequestInv(t)
  {
    forall x | x in t.pc && x != pe
      ensures FitToRun(t, t.pc[x])
    {
      assert FitToRun(s, s.pc[x]);
    }
  }

  lemma FitAt(s: St, pe: nat)
    requires RequestInv(s) && pe in s.pc
    ensures FitToRun(s, s.pc[pe])
  {
  }

  lemma LockAt(s: St, pe: nat)
    requires LockInv(s) && pe in s.pc
    ensures LockOk(s, pe)
  {
  }

  lemma WordFits(s: St, r: nat)
    requires WordInv(s) && r in s.word
    ensures s.word[r] < WORD_LIMIT
  {
  }

  lemma RunnerAt(s: St, pe: nat)
    requires RunnerInv(s) && pe in s.pc && InRec(s.pc[pe])
    ensures RealmKnown(s, s.pc[pe].rec) && s.rec[s.pc[pe].rec].rc == 1
  {
  }

  lemma LocksKept(s: St, t: St, movers: set<nat>)
    requires RunnerInv(s) && LockInv(s) && HeldStay(s, t) && t.pc.Keys == s.pc.Keys
    requires forall r :: r in s.word ==> LockStays(s, t, movers, r)
    requires forall pe :: pe in s.pc && pe !in movers ==> t.pc[pe] == s.pc[pe]
    requires forall pe :: pe in t.pc && pe in movers ==> LockOk(t, pe)
    ensures LockInv(t)
  {
    forall pe | pe in t.pc && pe !in movers
      ensures LockOk(t, pe)
    {
      assert LockOk(s, pe);
    }
  }

  // ---------------------------------------------------------------- RMI_REC_ENTER

  // Only the word of one Realm changes.
  predicate OneWord(s: St, t: St, r0: nat) {
    t.word.Keys == s.word.Keys && r0 in s.word && forall r :: r in s.word && r != r0 ==> t.word[r] == s.word[r]
  }

  lemma IncCasShape(s: St, pe: nat)
    requires RunnerInv(s) && LockInv(s) && Enabled(s, IncCas(pe))
    ensures pe in s.pc && s.pc[pe].IncLoaded? && s.pc[pe].rec in s.rec && StateOf(s.pc[pe].seen) == ACTIVE
    ensures var t, r0 := EnterStep(s, IncCas(pe)), RealmOf(s, pe);
            && OneMoves(s, t, pe) && OneWord(s, t, r0)
            && if s.word[r0] == s.pc[pe].seen then t.word[r0] == s.word[r0] + 1 && t.pc[pe] == Counted(s.pc[pe].rec)
               else t.word[r0] == s.word[r0] && t.pc[pe] == Claimed(s.pc[pe].rec)
  {
    hide StateOf, CountOf, Pack, LockInv;
    LockAt(s, pe);
  }

  lemma IncCasKeepsWord(s: St, pe: nat)
    requires Inv(s) && Enabled(s, IncCas(pe))
    ensures WordInv(EnterStep(s, IncCas(pe))) && ZombieInv(EnterStep(s, IncCas(pe)))
  {
    hide StateOf, CountOf, Pack, Enabled, EnterStep, PsciStep, WordInv, ZombieInv, RunnerInv, RequestInv, LockInv;
    IncCasShape(s, pe);
    var t, r0 := EnterStep(s, IncCas(pe)), RealmOf(s, pe);
    forall r | r in s.word
      ensures WordFollows(s, t, pe, r)
    {
      if r == r0 && s.word[r] == s.pc[pe].seen {
        MoverInside(s, t, pe, r);
        CountIs(s, r);
        InsideBelow(s, pe, r);
        PlusOne(s.word[r]);
      } else {
        WordUntouched(s, t, pe, r);
      }
    }
    WordKept(s, t, pe);
  }

  lemma CountIs(s: St, r: nat)
    requires WordInv(s) && r in s.word
    ensures s.word[r] < WORD_LIMIT && CountOf(s.word[r]) == |Inside(s, r)|
  {
  }

  // Somebody who is not inside leaves room for one more.
  lemma InsideBelow(s: St, pe: nat, r: nat)
    requires WordInv(s) && pe in s.pc && pe !in Inside(s, r)
    ensures |Inside(s, r)| + 1 < COUNT_LIMIT
  {
    assert Inside(s, r) + {pe} <= s.pc.Keys;
    SubsetSize(Inside(s, r) + {pe}, s.pc.Keys);
    assert |s.pc.Keys| == |s.pc|;
  }

  lemma DecrementShape(s: St, pe: nat)
    requires RunnerInv(s) && Enabled(s, Decrement(pe))
    ensures pe in s.pc && s.pc[pe].Exiting? && s.pc[pe].rec in s.rec
    ensures var t, r0 := EnterStep(s, Decrement(pe)), RealmOf(s, pe);
            && OneMoves(s, t, pe) && OneWord(s, t, r0)
            && s.word[r0] > 0 && t.word[r0] == s.word[r0] - 1 && t.pc[pe] == Leaving(s.pc[pe].rec)
  {
    hide StateOf, CountOf, Pack;
  }

  lemma DecrementKeepsWord(s: St, pe: nat)
    requires Inv(s) && Enabled(s, Decrement(pe))
    ensures WordInv(EnterStep(s, Decrement(pe))) && ZombieInv(EnterStep(s, Decrement(pe)))
  {
    hide StateOf, CountOf, Pack, Enabled, EnterStep, PsciStep, WordInv, ZombieInv, RunnerInv, RequestInv, LockInv;
    DecrementShape(s, pe);
    var t, r0 := EnterStep(s, Decrement(pe)), RealmOf(s, pe);
    forall r | r in s.word
      ensures WordFollows(s, t, pe, r)
    {
      if r == r0 {
        MoverInside(s, t, pe, r);
        CountIs(s, r);
        SomebodyInside(s, pe, r);
        MinusOne(s.word[r]);
      } else {
        WordUntouched(s, t, pe, r);
      }
    }
    WordKept(s, t, pe);
  }

  // While somebody is inside, the count is positive and the Realm is ACTIVE or SYSTEM_OFF.
  lemma SomebodyInside(s: St, pe: nat, r: nat)
    requires WordInv(s) && ZombieInv(s) && r in s.word && pe in Inside(s, r)
    ensures s.word[r] > 0 && CountOf(s.word[r]) > 0 && (StateOf(s.word[r]) == ACTIVE || StateOf(s.word[r]) == SYSTEM_OFF)
  {
    assert Inside(s, r) != {};
    Repack(s.word[r]);
  }

  // The other steps of RMI_REC_ENTER leave the word alone and cross neither the increment nor the decrement.
  lemma EnterKeepsWord(s: St, a: Act)
    requires Inv(s) && Enabled(s, a) && IsEnter(a)
    ensures WordInv(EnterStep(s, a)) && ZombieInv(EnterStep(s, a))
  {
    if a.IncCas? {
      IncCasKeepsWord(s, a.pe);
    } else if a.Decrement? {
      DecrementKeepsWord(s, a.pe);
    } else {
      QuietEnterKeepsWord(s, a);
    }
  }

  lemma QuietEnterShape(s: St, a: Act)
    requires RunnerInv(s) && Enabled(s, a) && IsEnter(a) && !a.IncCas? && !a.Decrement?
    ensures Quiet(s, EnterStep(s, a), a.pe)
  {
    hide Enabled, EnterStep, Quiet, RunnerInv;
    if a.Claim? || a.Release? {
      QuietClaim(s, a);
    } else {
      QuietWithin(s, a);
    }
  }

  // One processing element moves and stays inside or outside of its REC.
  ghost predicate Quiet(s: St, t: St, pe: nat) {
    && OneMoves(s, t, pe) && t.word == s.word
    && IsInside(t.pc[pe]) == IsInside(s.pc[pe])
    && (IsInside(t.pc[pe]) ==> t.pc[pe].rec == s.pc[pe].rec)
  }

  lemma QuietClaim(s: St, a: Act)
    requires Enabled(s, a) && (a.Claim? || a.Release?)
    ensures Quiet(s, EnterStep(s, a), a.pe)
  {
    hide StateOf, CountOf, Pack;
  }

  lemma QuietWithin(s: St, a: Act)
    requires RunnerInv(s) && Enabled(s, a) && IsEnter(a) && !a.IncCas? && !a.Decrement? && !a.Claim? && !a.Release?
    ensures Quiet(s, EnterStep(s, a), a.pe)
  {
    hide StateOf, CountOf, Pack, RunnerInv;
    RunnerAt(s, a.pe);
  }

  lemma QuietEnterKeepsWord(s: St, a: Act)
    requires Inv(s) && Enabled(s, a) && IsEnter(a) && !a.IncCas? && !a.Decrement?
    ensures WordInv(EnterStep(s, a)) && ZombieInv(EnterStep(s, a))
  {
    hide StateOf, CountOf, Pack, Enabled, EnterStep, RequestInv, LockInv, RunnerInv, ZombieInv, WordInv;
    var t := EnterStep(s, a);
    QuietEnterShape(s, a);
    forall r | r in s.word ensures WordFollows(s, t, a.pe, r) { WordUntouched(s, t, a.pe, r); }
    WordKept(s, t, a.pe);
  }

  lemma ClaimKeepsRunner(s: St, pe: nat, at: nat)
    requires RunnerInv(s) && Enabled(s, Claim(pe, at))
    ensures RunnerInv(EnterStep(s, Claim(pe, at)))
  {
    var t := EnterStep(s, Claim(pe, at));
    assert Holds(t, pe, at);
    forall o | o in t.rec && t.rec[o].rc == 1 && o != at
      ensures exists x :: Holds(t, x, o)
    {
      var x :| Holds(s, x, o);
      assert Holds(t, x, o);
    }
  }

  lemma ReleaseKeepsRunner(s: St, pe: nat)
    requires RunnerInv(s) && Enabled(s, Release(pe))
    ensures RunnerInv(EnterStep(s, Release(pe)))
  {
    var t := EnterStep(s, Release(pe));
    forall o | o in t.rec && t.rec[o].rc == 1
      ensures exists x :: Holds(t, x, o)
    {
      var x :| Holds(s, x, o);
      assert Holds(t, x, o);
    }
  }

  lemma EnterKeepsRunner(s: St, a: Act)
    requires RunnerInv(s) && Enabled(s, a) && IsEnter(a)
    ensures RunnerInv(EnterStep(s, a))
  {
    hide StateOf, CountOf, Pack;
    if a.Claim? {
      ClaimKeepsRunner(s, a.pe, a.at);
    } else if a.Release? {
      ReleaseKeepsRunner(s, a.pe);
    } else {
      SameClaimsKeepRunner(s, EnterStep(s, a));
    }
  }

  lemma EnterKeepsRequests(s: St, a: Act)
    requires RunnerInv(s) && RequestInv(s) && Enabled(s, a) && IsEnter(a)
    ensures RequestInv(EnterStep(s, a))
  {
    assert a.pe in s.pc;
    hide Enabled, EnterStep, RunnerInv, RequestInv;
    FitAt(s, a.pe);
    EntersFit(s, a);
    RequestsKept(s, EnterStep(s, a), a.pe);
  }

  // Entering and leaving a REC touches no request, and only a REC without one starts to run.
  lemma EntersFit(s: St, a: Act)
    requires Enabled(s, a) && IsEnter(a) && a.pe in s.pc && FitToRun(s, s.pc[a.pe])
    ensures var t := EnterStep(s, a);
            a.pe in t.pc && t.pc == s.pc[a.pe := t.pc[a.pe]] && FitToRun(t, t.pc[a.pe]) && SameWishes(s, t)
  {
    hide Enabled, EnterStep, FitToRun, SameWishes;
    if a.Claim? || a.Release? {
      ClaimsFit(s, a);
    } else {
      InsideFits(s, a);
    }
  }

  // Nobody asks for anything, is answered, or is switched on or off.
  predicate SameWishes(s: St, t: St) {
    && t.rec.Keys == s.rec.Keys
    && forall at :: at in s.rec ==>
         && Open(t.rec[at]) == Open(s.rec[at])
         && t.rec[at].pending == s.rec[at].pending && t.rec[at].runnable == s.rec[at].runnable
  }

  lemma ClaimsFit(s: St, a: Act)
    requires Enabled(s, a) && (a.Claim? || a.Release?)
    ensures var t := EnterStep(s, a);
            a.pe in t.pc && t.pc == s.pc[a.pe := t.pc[a.pe]] && FitToRun(t, t.pc[a.pe]) && SameWishes(s, t)
  {
    hide StateOf, CountOf, Pack;
  }

  lemma InsideFits(s: St, a: Act)
    requires Enabled(s, a) && IsEnter(a) && !a.Claim? && !a.Release? && a.pe in s.pc && FitToRun(s, s.pc[a.pe])
    ensures var t := EnterStep(s, a);
            a.pe in t.pc && t.pc == s.pc[a.pe := t.pc[a.pe]] && FitToRun(t, t.pc[a.pe]) && SameWishes(s, t)
  {
    hide StateOf, CountOf, Pack;
  }

  lemma EnterKeepsLocks(s: St, a: Act)
    requires WordInv(s) && RunnerInv(s) && LockInv(s) && Enabled(s, a) && IsEnter(a)
    ensures LockInv(EnterStep(s, a))
  {
    hide StateOf, CountOf, Pack, WordInv, RunnerInv, LockInv, Enabled, EnterStep, LockOk;
    var t := EnterStep(s, a);
    EnterLocksNothing(s, a);
    forall r | r in s.word
      ensures LockStays(s, t, {a.pe}, r)
    {
      EnterKeepsState(s, a, r);
    }
    LocksKept(s, t, {a.pe});
  }

  // Entering and leaving takes no lock, and those who do hold none.
  lemma EnterLocksNothing(s: St, a: Act)
    requires WordInv(s) && RunnerInv(s) && LockInv(s) && Enabled(s, a) && IsEnter(a)
    ensures HoldsNone(s, EnterStep(s, a), a.pe)
  {
    hide Enabled, EnterStep, HoldsNone, RunnerInv, WordInv, LockInv;
    if a.Claim? || a.Release? {
      ClaimLocksNothing(s, a);
    } else {
      WithinLocksNothing(s, a);
    }
  }

  predicate HoldsNone(s: St, t: St, pe: nat) {
    HeldStay(s, t) && pe in s.pc && pe in t.pc && t.pc == s.pc[pe := t.pc[pe]] && t.lock == s.lock && LockOk(t, pe)
  }

  lemma ClaimLocksNothing(s: St, a: Act)
    requires Enabled(s, a) && (a.Claim? || a.Release?)
    ensures HoldsNone(s, EnterStep(s, a), a.pe)
  {
    hide StateOf, CountOf, Pack;
  }

  lemma WithinLocksNothing(s: St, a: Act)
    requires WordInv(s) && RunnerInv(s) && LockInv(s) && Enabled(s, a) && IsEnter(a) && !a.Claim? && !a.Release?
    ensures HoldsNone(s, EnterStep(s, a), a.pe)
  {
    hide StateOf, CountOf, Pack, WordInv, RunnerInv, LockInv;
    LockAt(s, a.pe);
    RunnerAt(s, a.pe);
    WordFits(s, RealmOf(s, a.pe));
  }

  // Entering and leaving a Realm never changes its state.
  lemma EnterKeepsState(s: St, a: Act, r: nat)
    requires WordInv(s) && RunnerInv(s) && Enabled(s, a) && IsEnter(a) && r in s.word
    ensures r in EnterStep(s, a).word && StateOf(EnterStep(s, a).word[r]) == StateOf(s.word[r])
  {
    hide StateOf, CountOf, Pack, WordInv;
    if a.IncCas? && r == RealmOf(s, a.pe) && s.word[r] == s.pc[a.pe].seen {
      CountIs(s, r);
      InsideBelow(s, a.pe, r);
      PlusOne(s.word[r]);
    } else if a.Decrement? && r == RealmOf(s, a.pe) {
      CountIs(s, r);
      assert a.pe in Inside(s, r);
      assert Inside(s, r) != {};
      MinusOne(s.word[r]);
    }
  }

  // ---------------------------------------------------------------- PSCI

  lemma OffCasShape(s: St, pe: nat)
    requires RunnerInv(s) && Enabled(s, OffCas(pe))
    ensures pe in s.pc && s.pc[pe].OffLoaded? && s.pc[pe].rec in s.rec
    ensures var t, r0 := PsciStep(s, OffCas(pe)), RealmOf(s, pe);
            && OneMoves(s, t, pe) && OneWord(s, t, r0)
            && IsInside(t.pc[pe]) && t.pc[pe].rec == s.pc[pe].rec
            && t.word[r0] == if s.word[r0] == s.pc[pe].seen then Pack(SYSTEM_OFF, CountOf(s.word[r0])) else s.word[r0]
  {
    hide StateOf, CountOf, Pack;
  }

  lemma OffCasKeepsWord(s: St, pe: nat)
    requires Inv(s) && Enabled(s, OffCas(pe))
    ensures WordInv(PsciStep(s, OffCas(pe))) && ZombieInv(PsciStep(s, OffCas(pe)))
  {
    hide StateOf, CountOf, Pack, Enabled, EnterStep, PsciStep, WordInv, ZombieInv, RunnerInv, RequestInv, LockInv;
    OffCasShape(s, pe);
    var t, r0 := PsciStep(s, OffCas(pe)), RealmOf(s, pe);
    forall r | r in s.word
      ensures WordFollows(s, t, pe, r)
    {
      if r == r0 && s.word[r] == s.pc[pe].seen {
        MoverInside(s, t, pe, r);
        CountIs(s, r);
        Repack(s.word[r]);
        Unpack(SYSTEM_OFF, CountOf(s.word[r]));
      } else {
        WordUntouched(s, t, pe, r);
      }
    }
    WordKept(s, t, pe);
  }

  lemma QuietPsciShape(s: St, a: Act)
    requires RunnerInv(s) && Enabled(s, a) && IsPsci(a) && !a.OffCas?
    ensures var t := PsciStep(s, a);
            && OneMoves(s, t, a.pe) && t.word == s.word && IsInside(t.pc[a.pe]) && IsInside(s.pc[a.pe])
            && t.pc[a.pe].rec == s.pc[a.pe].rec
  {
    hide StateOf, CountOf, Pack;
  }

  lemma PsciKeepsWord(s: St, a: Act)
    requires Inv(s) && Enabled(s, a) && IsPsci(a)
    ensures WordInv(PsciStep(s, a)) && ZombieInv(PsciStep(s, a))
  {
    hide StateOf, CountOf, Pack, Enabled, EnterStep, PsciStep, WordInv, ZombieInv, RunnerInv, RequestInv, LockInv;
    if a.OffCas? {
      OffCasKeepsWord(s, a.pe);
    } else {
      var t := PsciStep(s, a);
      QuietPsciShape(s, a);
      forall r | r in s.word ensures WordFollows(s, t, a.pe, r) { WordUntouched(s, t, a.pe, r); }
      WordKept(s, t, a.pe);
    }
  }

  lemma PsciKeepsRunner(s: St, a: Act)
    requires RunnerInv(s) && Enabled(s, a) && IsPsci(a)
    ensures RunnerInv(PsciStep(s, a))
  {
    hide RunnerInv, Enabled, PsciStep, SameClaims;
    if a.CpuOff? || a.CpuOn? {
      CpuKeepsClaims(s, a);
    } else {
      OffKeepsClaims(s, a);
    }
    SameClaimsKeepRunner(s, PsciStep(s, a));
  }

  lemma CpuKeepsClaims(s: St, a: Act)
    requires RunnerInv(s) && Enabled(s, a) && (a.CpuOff? || a.CpuOn?)
    ensures SameClaims(s, PsciStep(s, a))
  {
    hide RunnerInv, StateOf, CountOf, Pack;
    RunnerAt(s, a.pe);
  }

  lemma OffKeepsClaims(s: St, a: Act)
    requires RunnerInv(s) && Enabled(s, a) && (a.OffLock? || a.OffLoad? || a.OffCas?)
    ensures SameClaims(s, PsciStep(s, a))
  {
    hide RunnerInv, StateOf, CountOf, Pack;
    RunnerAt(s, a.pe);
  }

  lemma PsciKeepsRequests(s: St, a: Act)
    requires RunnerInv(s) && RequestInv(s) && Enabled(s, a) && IsPsci(a)
    ensures RequestInv(PsciStep(s, a))
  {
    hide StateOf, CountOf, Pack, RunnerInv, RequestInv;
    FitAt(s, a.pe);
    RequestsKept(s, PsciStep(s, a), a.pe);
  }

  lemma PsciKeepsLocks(s: St, a: Act)
    requires WordInv(s) && RunnerInv(s) && LockInv(s) && Enabled(s, a) && IsPsci(a)
    ensures LockInv(PsciStep(s, a))
  {
    hide StateOf, CountOf, Pack, WordInv, RunnerInv, LockInv;
    var t := PsciStep(s, a);
    LockAt(s, a.pe);
    RunnerAt(s, a.pe);
    WordFits(s, RealmOf(s, a.pe));
    LocksKept(s, t, {a.pe});
  }

  // ---------------------------------------------------------------- activate and terminate

  lemma RealmShape(s: St, a: Act)
    requires Enabled(s, a) && IsRealm(a)
    ensures var t := RealmStep(s, a);
            && a.pe in s.pc && t.pc == s.pc[a.pe := t.pc[a.pe]] && !InRec(s.pc[a.pe]) && !InRec(t.pc[a.pe])
            && t.rec == s.rec && t.word.Keys == s.word.Keys
  {
    hide Enabled, RealmStep;
    if a.TermLock? || a.TermLoad? || a.TermCas? {
      TermShape(s, a);
    } else {
      ActShape(s, a);
    }
  }

  lemma ActShape(s: St, a: Act)
    requires Enabled(s, a) && (a.ActLock? || a.ActLoad? || a.ActCas?)
    ensures var t := RealmStep(s, a);
            && a.pe in s.pc && t.pc == s.pc[a.pe := t.pc[a.pe]] && !InRec(s.pc[a.pe]) && !InRec(t.pc[a.pe])
            && t.rec == s.rec && t.word.Keys == s.word.Keys
  {
    hide StateOf, CountOf, Pack;
  }

  lemma TermShape(s: St, a: Act)
    requires Enabled(s, a) && (a.TermLock? || a.TermLoad? || a.TermCas?)
    ensures var t := RealmStep(s, a);
            && a.pe in s.pc && t.pc == s.pc[a.pe := t.pc[a.pe]] && !InRec(s.pc[a.pe]) && !InRec(t.pc[a.pe])
            && t.rec == s.rec && t.word.Keys == s.word.Keys
  {
    hide StateOf, CountOf, Pack;
  }

  lemma RealmKeepsWord(s: St, a: Act)
    requires Inv(s) && Enabled(s, a) && IsRealm(a)
    ensures WordInv(RealmStep(s, a)) && ZombieInv(RealmStep(s, a))
  {
    hide StateOf, CountOf, Pack, Enabled, RealmStep, RequestInv, LockInv, RunnerInv, ZombieInv, WordInv;
    var t := RealmStep(s, a);
    RealmShape(s, a);
    forall r | r in s.word
      ensures WordFollows(s, t, a.pe, r)
    {
      if t.word[r] != s.word[r] {
        MoverInside(s, t, a.pe, r);
        StateChange(s, a, r);
      } else {
        WordUntouched(s, t, a.pe, r);
      }
    }
    WordKept(s, t, a.pe);
  }

  // A state change keeps the count, and is to ACTIVE from NEW or to ZOMBIE with nobody inside.
  lemma StateChange(s: St, a: Act, r: nat)
    requires Inv(s) && Enabled(s, a) && IsRealm(a) && r in s.word && RealmStep(s, a).word[r] != s.word[r]
    ensures var t := RealmStep(s, a);
            && t.word[r] < WORD_LIMIT && CountOf(t.word[r]) == CountOf(s.word[r]) && StateOf(s.word[r]) < StateOf(t.word[r])
            && (|| (StateOf(s.word[r]) == NEW && StateOf(t.word[r]) == ACTIVE)
                || (StateOf(t.word[r]) == ZOMBIE && CountOf(s.word[r]) == 0))
  {
    hide StateOf, CountOf, Pack, RequestInv, RunnerInv, ZombieInv, WordInv, LockInv;
    WordFits(s, r);
    LockAt(s, a.pe);
    Repack(s.word[r]);
    if a.ActCas? {
      Unpack(ACTIVE, CountOf(s.word[r]));
    } else {
      Unpack(ZOMBIE, 0);
      Unpack(StateOf(s.word[r]), 0);
    }
  }

  lemma RealmKeepsRest(s: St, a: Act)
    requires RunnerInv(s) && RequestInv(s) && Enabled(s, a) && IsRealm(a)
    ensures RunnerInv(RealmStep(s, a)) && RequestInv(RealmStep(s, a))
  {
    hide StateOf, CountOf, Pack, Enabled, RealmStep;
    RealmShape(s, a);
    SameClaimsKeepRunner(s, RealmStep(s, a));
  }

  lemma RealmMover(s: St, a: Act)
    requires WordInv(s) && LockInv(s) && Enabled(s, a) && IsRealm(a)
    ensures a.pe in RealmStep(s, a).pc && LockOk(RealmStep(s, a), a.pe)
  {
    hide StateOf, CountOf, Pack, WordInv, LockInv;
    LockAt(s, a.pe);
    if a.ActLoad? || a.TermLoad? {
      WordFits(s, s.pc[a.pe].realm);
    }
  }

  lemma RealmLockStays(s: St, a: Act, r: nat)
    requires LockInv(s) && Enabled(s, a) && IsRealm(a) && r in s.word
    ensures LockStays(s, RealmStep(s, a), {a.pe}, r)
  {
    hide StateOf, CountOf, Pack, LockInv;
    LockAt(s, a.pe);
  }

  lemma RealmKeepsLocks(s: St, a: Act)
    requires WordInv(s) && RunnerInv(s) && LockInv(s) && Enabled(s, a) && IsRealm(a)
    ensures LockInv(RealmStep(s, a))
  {
    hide StateOf, CountOf, Pack, WordInv, RunnerInv, LockInv, LockOk, LockStays, Enabled, RealmStep;
    var t := RealmStep(s, a);
    RealmShape(s, a);
    RealmMover(s, a);
    forall r | r in s.word ensures LockStays(s, t, {a.pe}, r) { RealmLockStays(s, a, r); }
    LocksKept(s, t, {a.pe});
  }

  // ---------------------------------------------------------------- creation, destruction, RMI_PSCI_COMPLETE

  predicate IsAdmin(a: Act) {
    !IsEnter(a) && !IsPsci(a) && !IsRealm(a)
  }

  lemma AdminKeepsClaims(s: St, a: Act)
    requires Enabled(s, a) && IsAdmin(a)
    ensures SameClaims(s, AdminStep(s, a))
    ensures forall pe :: pe in s.pc ==> IsInside(AdminStep(s, a).pc[pe]) == IsInside(s.pc[pe])
  {
    hide SameClaims, Enabled, AdminStep;
    if a.CompleteBegin? || a.CompleteEnd? || a.DenyEnd? {
      CompletionKeepsClaims(s, a);
    } else {
      CreationKeepsClaims(s, a);
    }
  }

  lemma CreationKeepsClaims(s: St, a: Act)
    requires Enabled(s, a) && (a.RealmCreate? || a.RecCreate? || a.RecDestroy? || a.RecUnlist?)
    ensures SameClaims(s, AdminStep(s, a))
    ensures forall pe :: pe in s.pc ==> IsInside(AdminStep(s, a).pc[pe]) == IsInside(s.pc[pe])
  {
    hide StateOf, CountOf, Pack;
  }

  lemma CompletionKeepsClaims(s: St, a: Act)
    requires Enabled(s, a) && (a.CompleteBegin? || a.CompleteEnd? || a.DenyEnd?)
    ensures SameClaims(s, AdminStep(s, a))
    ensures forall pe :: pe in s.pc ==> IsInside(AdminStep(s, a).pc[pe]) == IsInside(s.pc[pe])
  {
    hide SameClaims, Complete, StateOf, CountOf, Pack;
    var t := AdminStep(s, a);
    assert a.pe in s.pc && !InRec(s.pc[a.pe]) && !InRec(t.pc[a.pe]) && t.pc == s.pc[a.pe := t.pc[a.pe]];
    assert t.word == s.word && t.rec.Keys == s.rec.Keys;
    assert forall at :: at in s.rec ==> t.rec[at].rc == s.rec[at].rc && t.rec[at].realm == s.rec[at].realm;
    MovesOutside(s, t, a.pe);
  }

  // One processing element moves outside of RECs, and references and Realms of RECs stay.
  lemma MovesOutside(s: St, t: St, pe: nat)
    requires pe in s.pc && pe in t.pc && !InRec(s.pc[pe]) && !InRec(t.pc[pe]) && t.pc == s.pc[pe := t.pc[pe]]
    requires t.word == s.word && t.rec.Keys == s.rec.Keys
    requires forall at :: at in s.rec ==> t.rec[at].rc == s.rec[at].rc && t.rec[at].realm == s.rec[at].realm
    ensures SameClaims(s, t) && forall x :: x in s.pc ==> IsInside(t.pc[x]) == IsInside(s.pc[x])
  {
  }

  lemma SameInside(s: St, t: St, r: nat)
    requires RunnerInv(s) && SameClaims(s, t)
    requires forall pe :: pe in s.pc ==> IsInside(t.pc[pe]) == IsInside(s.pc[pe])
    ensures Inside(t, r) == Inside(s, r)
  {
  }

  // Words are only added, for Realms that nobody is inside.
  lemma AdminWords(s: St, a: Act)
    requires RunnerInv(s) && Enabled(s, a) && IsAdmin(a)
    ensures forall r :: r in s.word ==> r in AdminStep(s, a).word && AdminStep(s, a).word[r] == s.word[r]
    ensures forall r :: r in AdminStep(s, a).word && r !in s.word ==>
              AdminStep(s, a).word[r] == Pack(NEW, 0) && Inside(s, r) == {}
  {
    hide StateOf, CountOf, Pack;
  }

  lemma AdminKeepsWord(s: St, a: Act)
    requires WordInv(s) && ZombieInv(s) && RunnerInv(s) && Enabled(s, a) && IsAdmin(a)
    ensures WordInv(AdminStep(s, a)) && ZombieInv(AdminStep(s, a))
  {
    hide StateOf, CountOf, Pack, Enabled, AdminStep, RunnerInv;
    var t := AdminStep(s, a);
    AdminKeepsClaims(s, a);
    assert t.pc.Keys == s.pc.Keys && |t.pc.Keys| == |t.pc| && |s.pc.Keys| == |s.pc|;
    forall r ensures Inside(t, r) == Inside(s, r) { SameInside(s, t, r); }
    AdminWords(s, a);
    Unpack(NEW, 0);
  }

  lemma AdminKeepsRequests(s: St, a: Act)
    requires RunnerInv(s) && RequestInv(s) && Enabled(s, a) && IsAdmin(a)
    ensures RequestInv(AdminStep(s, a))
  {
    hide Complete, StateOf, CountOf, Pack;
  }

  lemma AdminKeepsLocks(s: St, a: Act)
    requires RunnerInv(s) && LockInv(s) && Enabled(s, a) && IsAdmin(a)
    ensures LockInv(AdminStep(s, a))
  {
    hide RunnerInv, LockInv, Complete, StateOf, CountOf, Pack;
    var t := AdminStep(s, a);
    AdminKeepsClaims(s, a);
    AdminWords(s, a);
    LocksKept(s, t, if t.pc == s.pc then {} else {a.pe});
  }

  // ---------------------------------------------------------------- every step

  lemma StepKeepsInv(s: St, a: Act)
    requires Inv(s) && Enabled(s, a)
    ensures Inv(Step(s, a))
  {
    hide WordInv, ZombieInv, RunnerInv, RequestInv, LockInv, Enabled, EnterStep, PsciStep, RealmStep, AdminStep;
    if IsEnter(a) {
      EnterKeepsWord(s, a);
      EnterKeepsRunner(s, a);
      EnterKeepsRequests(s, a);
      EnterKeepsLocks(s, a);
    } else if IsPsci(a) {
      PsciKeepsWord(s, a);
      PsciKeepsRunner(s, a);
      PsciKeepsRequests(s, a);
      PsciKeepsLocks(s, a);
    } else if IsRealm(a) {
      RealmKeepsWord(s, a);
      RealmKeepsRest(s, a);
      RealmKeepsLocks(s, a);
    } else {
      AdminKeepsWord(s, a);
      AdminKeepsClaims(s, a);
      SameClaimsKeepRunner(s, AdminStep(s, a));
      AdminKeepsRequests(s, a);
      AdminKeepsLocks(s, a);
    }
  }
}
