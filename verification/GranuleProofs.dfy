/**
  * Tracked state and PAS agree, and nothing written in Realm use is ever exposed.
  */
module GranuleProofs {
  import opened Granules

  // The pages an operation owns, and those of them that are in Realm PAS.
  predicate Owns(o: Sro, p: nat) {
    In(if o.coarse then o.lo else o.lo + o.done, o.lo + o.n, p)
  }

  predicate InRealmPart(o: Sro, p: nat) {
    match o
    case DelSro(_, lo, _, coarse, done, rolling, rolled, _) =>
      coarse && In(if rolling then lo + rolled else lo, lo + done, p)
    case UndSro(_, lo, n, _, _, done, _, _) => In(lo + done, lo + n, p)
  }

  predicate SroOk(o: Sro) {
    && o.host <= o.lo && o.done < o.n
    && match o
       case DelSro(_, _, _, coarse, done, rolling, rolled, _) => if rolling then coarse && rolled < done else rolled == 0
       case UndSro(_, _, n, _, dev, done, clean, el3) => clean <= n && (done > 0 || el3 ==> dev || clean == n)
  }

  ghost predicate SrosOk(s: St) {
    forall h :: h in s.sros ==> SroOk(s.sros[h])
  }

  // A granule tracked NS has Non-secure PAS, one tracked DELEGATED or in use has Realm PAS.
  ghost predicate Agrees(s: St) {
    forall p :: p in s.gran ==>
      && (s.gran[p] == NonSecure ==> p !in s.realm)
      && (s.gran[p] == Delegated || s.gran[p] == InUse ==> p in s.realm)
  }

  predicate Owner(s: St, h: nat, p: nat) {
    h in s.sros && Owns(s.sros[h], p)
  }

  // An operation's pages are PARTIAL, and its offsets split them exactly into Realm and NS parts.
  ghost predicate Splits(s: St) {
    forall h, p :: Owner(s, h, p) ==> Is(s, p, Partial) && (p in s.realm <==> InRealmPart(s.sros[h], p))
  }

  ghost predicate Sole(s: St) {
    forall h, h', p :: Owner(s, h, p) && Owner(s, h', p) ==> h == h'
  }

  ghost predicate PartialOwned(s: St) {
    forall p :: Is(s, p, Partial) ==> exists h :: Owner(s, h, p)
  }

  // Conventional memory holds Realm data only while it is in Realm PAS; what a delegation owns holds none,
  // nor does what an undelegation has scrubbed.
  ghost predicate Clean(s: St) {
    && (forall p :: p in s.gran && p in s.dirty && p !in s.device ==> p in s.realm)
    && (forall h, p :: Owner(s, h, p) && p in s.dirty && p !in s.device ==>
          s.sros[h].UndSro? && !In(s.sros[h].lo, s.sros[h].lo + s.sros[h].clean, p))
    && (forall h, p :: Owner(s, h, p) && s.sros[h].UndSro? && s.sros[h].dev ==> p in s.device)
  }

  ghost predicate Inv(s: St) {
    SrosOk(s) && Agrees(s) && Splits(s) && Sole(s) && PartialOwned(s) && Clean(s)
  }

  // ---------------------------------------------------------------- every action keeps it

  lemma UseKeeps(s: St, a: Act)
    requires Inv(s) && Enabled(s, a) && (a.Use? || a.Write? || a.Free?)
    ensures Inv(Step(s, a))
  {
    var r := Step(s, a);
    forall h, p ensures Owner(r, h, p) <==> Owner(s, h, p) {}
    forall p | Is(r, p, Partial)
      ensures exists h :: Owner(r, h, p)
    {
      assert Is(s, p, Partial);
      var h :| Owner(s, h, p);
      assert Owner(r, h, p);
    }
  }

  // Pages an operation may act on: its own, and free ones it claims.
  predicate Mine(s: St, h: nat, p: nat) {
    Owner(s, h, p) || Is(s, p, NonSecure) || Is(s, p, Delegated)
  }

  // A page as its owner h must leave it.
  predicate OwnedOk(s: St, h: nat, p: nat) {
    && h in s.sros && Is(s, p, Partial) && (p in s.realm <==> InRealmPart(s.sros[h], p))
    && (p in s.dirty && p !in s.device ==>
          p in s.realm && s.sros[h].UndSro? && !In(s.sros[h].lo, s.sros[h].lo + s.sros[h].clean, p))
    && (s.sros[h].UndSro? && s.sros[h].dev ==> p in s.device)
  }

  // A page nobody owns, tracked as its PAS says.
  predicate FreeOk(s: St, p: nat) {
    && ((Is(s, p, NonSecure) && p !in s.realm) || (Is(s, p, Delegated) && p in s.realm))
    && (p in s.dirty && p !in s.device ==> p in s.realm)
  }

  ghost predicate OthersSame(s: St, r: St, h: nat) {
    && r.device == s.device && r.gran.Keys == s.gran.Keys && r.dirty <= s.dirty
    && (forall x :: x != h ==> (x in r.sros <==> x in s.sros) && (x in s.sros ==> r.sros[x] == s.sros[x]))
    && (forall p :: p in s.gran && !Mine(s, h, p) ==> r.gran[p] == s.gran[p] && (p in r.realm <==> p in s.realm))
  }

  // An action of operation h on its own pages.
  lemma SroStep(s: St, r: St, h: nat)
    requires Inv(s) && OthersSame(s, r, h) && (h in r.sros ==> SroOk(r.sros[h]))
    requires forall p :: Owner(r, h, p) ==> Mine(s, h, p) && OwnedOk(r, h, p)
    requires forall p :: p in s.gran && Mine(s, h, p) && !Owner(r, h, p) ==> FreeOk(r, p)
    ensures Inv(r)
  {
    forall x, p | x != h
      ensures Owner(r, x, p) <==> Owner(s, x, p)
      ensures Owner(s, x, p) ==> !Mine(s, h, p)
    {
    }
    SroStepOwners(s, r, h);
    SroStepPages(s, r, h);
  }

  lemma SroStepOwners(s: St, r: St, h: nat)
    requires Inv(s) && OthersSame(s, r, h) && (h in r.sros ==> SroOk(r.sros[h]))
    requires forall p :: Owner(r, h, p) ==> Mine(s, h, p) && OwnedOk(r, h, p)
    requires forall x, p :: x != h ==> (Owner(r, x, p) <==> Owner(s, x, p)) && (Owner(s, x, p) ==> !Mine(s, h, p))
    ensures SrosOk(r) && Splits(r) && Sole(r)
  {
    forall x, p | Owner(r, x, p)
      ensures Is(r, p, Partial) && (p in r.realm <==> InRealmPart(r.sros[x], p))
    {
      if x != h {
        assert Owner(s, x, p);
      }
    }
  }

  lemma SroStepPages(s: St, r: St, h: nat)
    requires Inv(s) && OthersSame(s, r, h)
    requires forall p :: Owner(r, h, p) ==> Mine(s, h, p) && OwnedOk(r, h, p)
    requires forall p :: p in s.gran && Mine(s, h, p) && !Owner(r, h, p) ==> FreeOk(r, p)
    requires forall x, p :: x != h ==> (Owner(r, x, p) <==> Owner(s, x, p)) && (Owner(s, x, p) ==> !Mine(s, h, p))
    ensures Agrees(r) && PartialOwned(r) && Clean(r)
  {
    forall p | Is(r, p, Partial)
      ensures exists x :: Owner(r, x, p)
    {
      if !Owner(r, h, p) {
        assert Is(s, p, Partial);
        var x :| Owner(s, x, p);
        assert Owner(r, x, p);
      }
    }
    forall x, p | Owner(r, x, p) && p in r.dirty && p !in r.device
      ensures r.sros[x].UndSro? && !In(r.sros[x].lo, r.sros[x].lo + r.sros[x].clean, p)
    {
      if x != h {
        assert Owner(s, x, p);
      }
    }
    forall x, p | Owner(r, x, p) && r.sros[x].UndSro? && r.sros[x].dev
      ensures p in r.device
    {
      if x != h {
        assert Owner(s, x, p);
      }
    }
  }

  // What the invariant says of one page and one operation.
  lemma PageFacts(s: St, h: nat, p: nat)
    requires Inv(s) && p in s.gran
    ensures h in s.sros ==> SroOk(s.sros[h])
    ensures s.gran[p] == NonSecure ==> p !in s.realm
    ensures s.gran[p] == Delegated || s.gran[p] == InUse ==> p in s.realm
    ensures p in s.dirty && p !in s.device ==> p in s.realm
    ensures Owner(s, h, p) ==> OwnedOk(s, h, p)
  {
  }

  lemma DelegatePage(s: St, h: nat, host: nat, lo: nat, n: nat, coarse: bool, k: nat, ans: Answer, p: nat)
    requires Inv(s) && Enabled(s, Delegate(h, host, lo, n, coarse, k, ans)) && p in s.gran && Mine(s, h, p)
    ensures var r := Step(s, Delegate(h, host, lo, n, coarse, k, ans)); if Owner(r, h, p) then OwnedOk(r, h, p) else FreeOk(r, p)
  {
    hide Inv;
    PageFacts(s, h, p);
  }

  lemma DelegateOthers(s: St, h: nat, host: nat, lo: nat, n: nat, coarse: bool, k: nat, ans: Answer)
    requires Inv(s) && Enabled(s, Delegate(h, host, lo, n, coarse, k, ans))
    ensures var r := Step(s, Delegate(h, host, lo, n, coarse, k, ans));
            && OthersSame(s, r, h) && (h in r.sros ==> SroOk(r.sros[h]))
            && forall p :: Owner(r, h, p) ==> p in s.gran && Mine(s, h, p)
  {
    hide Sole, PartialOwned, Clean;
  }

  lemma DelegateKeeps(s: St, h: nat, host: nat, lo: nat, n: nat, coarse: bool, k: nat, ans: Answer)
    requires Inv(s) && Enabled(s, Delegate(h, host, lo, n, coarse, k, ans))
    ensures Inv(Step(s, Delegate(h, host, lo, n, coarse, k, ans)))
  {
    hide Inv, Enabled, Step, OthersSame, OwnedOk, FreeOk;
    var r := Step(s, Delegate(h, host, lo, n, coarse, k, ans));
    DelegateOthers(s, h, host, lo, n, coarse, k, ans);
    forall p | p in s.gran && Mine(s, h, p)
      ensures if Owner(r, h, p) then OwnedOk(r, h, p) else FreeOk(r, p)
    {
      DelegatePage(s, h, host, lo, n, coarse, k, ans, p);
    }
    SroStep(s, r, h);
  }


  lemma ContinuePage(s: St, h: nat, k: nat, ans: Answer, p: nat)
    requires Inv(s) && Enabled(s, Continue(h, k, ans)) && p in s.gran && Mine(s, h, p)
    ensures var r := Step(s, Continue(h, k, ans)); if Owner(r, h, p) then OwnedOk(r, h, p) else FreeOk(r, p)
  {
    hide Inv;
    PageFacts(s, h, p);
  }

  lemma ContinueOthers(s: St, h: nat, k: nat, ans: Answer)
    requires Inv(s) && Enabled(s, Continue(h, k, ans))
    ensures var r := Step(s, Continue(h, k, ans));
            && OthersSame(s, r, h) && (h in r.sros ==> SroOk(r.sros[h]))
            && forall p :: Owner(r, h, p) ==> p in s.gran && Mine(s, h, p)
  {
    hide Sole, PartialOwned, Clean, OthersSame;
    ContinueAlone(s, h, k, ans);
    var r := Step(s, Continue(h, k, ans));
    forall p | Owner(r, h, p) ensures p in s.gran && Mine(s, h, p) { assert Owner(s, h, p); }
  }

  lemma ContinueAlone(s: St, h: nat, k: nat, ans: Answer)
    requires Inv(s) && Enabled(s, Continue(h, k, ans))
    ensures OthersSame(s, Step(s, Continue(h, k, ans)), h)
  {
    hide Sole, PartialOwned, Clean;
  }

  lemma ContinueKeeps(s: St, h: nat, k: nat, ans: Answer)
    requires Inv(s) && Enabled(s, Continue(h, k, ans))
    ensures Inv(Step(s, Continue(h, k, ans)))
  {
    hide Inv, Enabled, Step, OthersSame, OwnedOk, FreeOk;
    var r := Step(s, Continue(h, k, ans));
    ContinueOthers(s, h, k, ans);
    forall p | p in s.gran && Mine(s, h, p)
      ensures if Owner(r, h, p) then OwnedOk(r, h, p) else FreeOk(r, p)
    {
      ContinuePage(s, h, k, ans, p);
    }
    SroStep(s, r, h);
  }


  lemma RollbackKeeps(s: St, h: nat, k: nat, ans: Answer)
    requires Inv(s) && Enabled(s, Rollback(h, k, ans))
    ensures Inv(Step(s, Rollback(h, k, ans)))
  {
    var r := Step(s, Rollback(h, k, ans));
    forall p | p in s.gran && Mine(s, h, p)
      ensures if Owner(r, h, p) then OwnedOk(r, h, p) else FreeOk(r, p)
    {
    }
    forall p | Owner(r, h, p) ensures Owner(s, h, p) {}
    SroStep(s, r, h);
  }

  lemma ClaimKeeps(s: St, h: nat, host: nat, lo: nat, n: nat, coarse: bool, dev: bool)
    requires Inv(s) && Enabled(s, Claim(h, host, lo, n, coarse, dev))
    ensures Inv(Step(s, Claim(h, host, lo, n, coarse, dev)))
  {
    var r := Step(s, Claim(h, host, lo, n, coarse, dev));
    forall p | p in s.gran && Mine(s, h, p)
      ensures if Owner(r, h, p) then OwnedOk(r, h, p) else FreeOk(r, p)
    {
      assert dev && In(lo, lo + n, p) ==> p in Range(lo, lo + n);
    }
    SroStep(s, r, h);
  }

  lemma SanitizeKeeps(s: St, h: nat)
    requires Inv(s) && Enabled(s, Sanitize(h))
    ensures Inv(Step(s, Sanitize(h)))
  {
    var r := Step(s, Sanitize(h));
    forall p | p in s.gran && Mine(s, h, p)
      ensures if Owner(r, h, p) then OwnedOk(r, h, p) else FreeOk(r, p)
    {
    }
    SroStep(s, r, h);
  }

  lemma UndelegatePage(s: St, h: nat, k: nat, ans: Answer, entry: bool, p: nat)
    requires Inv(s) && Enabled(s, Undelegate(h, k, ans, entry)) && p in s.gran && Mine(s, h, p)
    ensures var r := Step(s, Undelegate(h, k, ans, entry)); if Owner(r, h, p) then OwnedOk(r, h, p) else FreeOk(r, p)
  {
    hide Inv;
    PageFacts(s, h, p);
  }

  lemma UndelegateOthers(s: St, h: nat, k: nat, ans: Answer, entry: bool)
    requires Inv(s) && Enabled(s, Undelegate(h, k, ans, entry))
    ensures var r := Step(s, Undelegate(h, k, ans, entry));
            && OthersSame(s, r, h) && (h in r.sros ==> SroOk(r.sros[h]))
            && forall p :: Owner(r, h, p) ==> p in s.gran && Mine(s, h, p)
  {
    hide Sole, PartialOwned, Clean, OthersSame;
    UndelegateAlone(s, h, k, ans, entry);
    var r := Step(s, Undelegate(h, k, ans, entry));
    forall p | Owner(r, h, p) ensures p in s.gran && Mine(s, h, p) { assert Owner(s, h, p); }
  }

  lemma UndelegateAlone(s: St, h: nat, k: nat, ans: Answer, entry: bool)
    requires Inv(s) && Enabled(s, Undelegate(h, k, ans, entry))
    ensures OthersSame(s, Step(s, Undelegate(h, k, ans, entry)), h)
  {
    hide Sole, PartialOwned, Clean;
  }

  lemma UndelegateKeeps(s: St, h: nat, k: nat, ans: Answer, entry: bool)
    requires Inv(s) && Enabled(s, Undelegate(h, k, ans, entry))
    ensures Inv(Step(s, Undelegate(h, k, ans, entry)))
  {
    hide Inv, Enabled, Step, OthersSame, OwnedOk, FreeOk;
    var r := Step(s, Undelegate(h, k, ans, entry));
    UndelegateOthers(s, h, k, ans, entry);
    forall p | p in s.gran && Mine(s, h, p)
      ensures if Owner(r, h, p) then OwnedOk(r, h, p) else FreeOk(r, p)
    {
      UndelegatePage(s, h, k, ans, entry, p);
    }
    SroStep(s, r, h);
  }


  lemma StepKeepsInv(s: St, a: Act)
    requires Inv(s) && Enabled(s, a)
    ensures Inv(Step(s, a))
  {
    match a
    case Use(_) => UseKeeps(s, a);
    case Write(_) => UseKeeps(s, a);
    case Free(_) => UseKeeps(s, a);
    case Delegate(h, host, lo, n, coarse, k, ans) => DelegateKeeps(s, h, host, lo, n, coarse, k, ans);
    case Continue(h, k, ans) => ContinueKeeps(s, h, k, ans);
    case Rollback(h, k, ans) => RollbackKeeps(s, h, k, ans);
    case Claim(h, host, lo, n, coarse, dev) => ClaimKeeps(s, h, host, lo, n, coarse, dev);
    case Sanitize(h) => SanitizeKeeps(s, h);
    case Undelegate(h, k, ans, entry) => UndelegateKeeps(s, h, k, ans, entry);
  }
}
