/**
  * What range delegation and undelegation promise along every run, whatever EL3 answers, wherever
  * interrupts fall, and whatever other commands do in between.
  */
module GranuleTheorems {
  import opened Granules
  import opened GranuleProofs

  // ---------------------------------------------------------------- runs

  // At boot nothing is delegated and nothing is in flight.
  ghost predicate Init(s: St) {
    s.realm == {} && s.dirty == {} && s.sros == map[] && forall p :: p in s.gran ==> s.gran[p] == NonSecure
  }

  ghost predicate Possible(s: St, run: seq<Act>)
    decreases |run|
  {
    run == [] || (Enabled(s, run[0]) && Possible(Step(s, run[0]), run[1..]))
  }

  function After(s: St, run: seq<Act>): (r: St)
    requires Possible(s, run)
    decreases |run|
  {
    if run == [] then s else After(Step(s, run[0]), run[1..])
  }

  lemma {:induction false} RunKeepsInv(s: St, run: seq<Act>)
    requires Inv(s) && Possible(s, run)
    ensures Inv(After(s, run))
    decreases |run|
  {
    hide Inv, Enabled, Step;
    if run != [] {
      StepKeepsInv(s, run[0]);
      RunKeepsInv(Step(s, run[0]), run[1..]);
    }
  }

  lemma ReachableInv(s: St, run: seq<Act>)
    requires Init(s) && Possible(s, run)
    ensures Inv(After(s, run))
  {
    assert Inv(s);
    RunKeepsInv(s, run);
  }

  // State and PAS agree; a PARTIAL page belongs to exactly one operation, whose offsets say its PAS.
  lemma StateMatchesPas(s: St, run: seq<Act>, p: nat)
    requires Init(s) && Possible(s, run) && p in After(s, run).gran
    ensures var r := After(s, run);
            && (r.gran[p] == NonSecure ==> p !in r.realm)
            && (r.gran[p] == Delegated ==> p in r.realm)
            && (r.gran[p] == Partial ==>
                  exists h :: Owner(r, h, p) && (p in r.realm <==> InRealmPart(r.sros[h], p))
                              && forall x :: Owner(r, x, p) ==> x == h)
  {
    ReachableInv(s, run);
    var r := After(s, run);
    if r.gran[p] == Partial {
      assert Is(r, p, Partial);
      var h :| Owner(r, h, p);
    }
  }

  // Conventional memory outside Realm PAS never holds anything written in Realm use.
  lemma ScrubbedBeforeExposed(s: St, run: seq<Act>, p: nat)
    requires Init(s) && Possible(s, run) && p in After(s, run).gran
    requires p !in After(s, run).realm && p !in After(s, run).device
    ensures p !in After(s, run).dirty
  {
    ReachableInv(s, run);
  }

  // A coarse delegation can be rolled back without scrubbing: nobody could write what it owns.
  lemma RollbackNeedsNoScrub(s: St, h: nat, p: nat)
    requires Inv(s) && h in s.sros && s.sros[h].DelSro? && Owns(s.sros[h], p) && p !in s.device
    ensures p !in s.dirty
  {
    assert Owner(s, h, p);
  }

  // ---------------------------------------------------------------- replies

  lemma DelegateReply(s: St, h: nat, host: nat, lo: nat, n: nat, coarse: bool, k: nat, ans: Answer)
    requires Enabled(s, Delegate(h, host, lo, n, coarse, k, ans))
    ensures var (r, reply) := DelStart(s, h, host, lo, n, coarse, k, ans);
            && (reply.Incomplete? <==> h in r.sros)
            && (reply.Success? ==> lo < reply.x1 <= lo + n && All(r.gran, lo, reply.x1, Delegated))
            && (reply.Error? ==> r == s)
  {
  }

  // Success of a continued delegation: the pages it just finished are DELEGATED; an error leaves the range
  // as it was before the command, state and PAS.
  lemma ContinueReply(s: St, h: nat, k: nat, ans: Answer)
    requires Inv(s) && Enabled(s, Continue(h, k, ans))
    ensures var o, (r, reply) := s.sros[h], DelResume(s, h, k, ans);
            && (reply.Incomplete? <==> h in r.sros)
            && (reply.Success? ==>
                  && o.host < reply.x1 <= o.lo + o.n
                  && All(r.gran, if o.coarse then o.lo else o.lo + o.done, reply.x1, Delegated))
            && (reply.Error? ==>
                  && reply.x1 == o.host && All(r.gran, o.lo, o.lo + o.n, NonSecure)
                  && forall p :: In(o.lo, o.lo + o.n, p) ==> p !in r.realm)
  {
    var o := s.sros[h];
    var (r, reply) := DelResume(s, h, k, ans);
    forall p | Owns(o, p)
      ensures p in s.gran && (p in s.realm <==> InRealmPart(o, p))
    {
      assert Owner(s, h, p);
    }
  }

  lemma RollbackReply(s: St, h: nat, k: nat, ans: Answer)
    requires Inv(s) && Enabled(s, Rollback(h, k, ans))
    ensures var o, (r, reply) := s.sros[h], RollResume(s, h, k, ans);
            && (reply.Incomplete? <==> h in r.sros)
            && !reply.Success?
            && (reply.Error? ==>
                  && reply.x1 == o.host && All(r.gran, o.lo, o.lo + o.n, NonSecure)
                  && forall p :: In(o.lo, o.lo + o.n, p) ==> p !in r.realm)
  {
    var o := s.sros[h];
    forall p | Owns(o, p)
      ensures p in s.gran && (p in s.realm <==> InRealmPart(o, p))
    {
      assert Owner(s, h, p);
    }
  }

  lemma UndelegateReply(s: St, h: nat, k: nat, ans: Answer, entry: bool)
    requires Inv(s) && Enabled(s, Undelegate(h, k, ans, entry))
    ensures var o, (r, reply) := s.sros[h], UndResume(s, h, k, ans, entry);
            && (reply.Incomplete? <==> h in r.sros)
            && (reply.Success? ==>
                  && o.host < reply.x1 <= o.lo + o.n
                  && All(r.gran, if o.coarse then o.lo else o.lo + o.done, reply.x1, NonSecure))
            && (reply.Error? ==>
                  && reply.x1 == o.host && All(r.gran, o.lo, o.lo + o.n, Delegated)
                  && forall p :: In(o.lo, o.lo + o.n, p) ==> p in r.realm)
  {
    var o := s.sros[h];
    forall p | Owns(o, p)
      ensures p in s.gran && (p in s.realm <==> InRealmPart(o, p))
    {
      assert Owner(s, h, p);
    }
  }

  // ---------------------------------------------------------------- strict progress of one iteration

  // An undelegation answers SUCCESS without having moved anything exactly when it began behind an NS
  // prefix and EL3 was busy without progress; the cursor it reports is then the end of that prefix.
  lemma StrictProgressIff(s: St, h: nat, k: nat, ans: Answer, entry: bool)
    requires Inv(s) && Enabled(s, Undelegate(h, k, ans, entry)) && s.sros[h].done == 0 && !s.sros[h].el3
    requires UndResume(s, h, k, ans, entry).1.Success?
    ensures UndResume(s, h, k, ans, entry).1.x1 > s.sros[h].lo <==> !(ans == Busy && s.sros[h].host < s.sros[h].lo)
    ensures UndResume(s, h, k, ans, entry).1.x1 > s.sros[h].host
  {
  }

  // ---------------------------------------------------------------- progress

  // How far an operation is from its end: first the phase, then what is left of it.
  function Phase(o: Sro): (n: nat) {
    if o.DelSro? && !o.rolling then 1 else 0
  }

  function Left(o: Sro): (n: int) {
    match o
    case DelSro(_, _, n, _, done, rolling, rolled, _) => if rolling then done - rolled else n - done
    case UndSro(_, _, n, _, _, done, clean, _) => (n - done) + (n - clean)
  }

  predicate Closer(o: Sro, o': Sro) {
    Phase(o') < Phase(o) || (Phase(o') == Phase(o) && 0 <= Left(o') < Left(o))
  }

  // Every continuation that is not the last brings the operation closer to its end, unless EL3 moved nothing.
  lemma ContinuationProgress(s: St, a: Act)
    requires Inv(s) && Enabled(s, a) && (a.Continue? || a.Rollback? || a.Sanitize? || a.Undelegate?)
    requires a.h in Step(s, a).sros && (!a.Sanitize? ==> a.k > 0)
    ensures Closer(s.sros[a.h], Step(s, a).sros[a.h])
  {
  }
}
