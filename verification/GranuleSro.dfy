/**
  * The range delegation commands and their continuations.
  */
module GranuleSro {
  import opened Basics
  import opened Granules
  import opened GranuleProofs
  import opened GranuleTheorems
  import opened GranuleCursor
  import opened GranuleAnswers

  // What the tracking metadata says about the granules at an address: an error, a unit or granule that is
  // in the target state already, or a run of granules to work on (one unit when tracked coarsely).
  datatype Lookup = Unusable | InTarget(size: nat) | Source(n: nat, coarse: bool)

  // What EL3 does with a request: how many granules it moves, and its answer.
  datatype El3 = El3(k: nat, ans: Answer)

  // What EL3 does with a request for `left` granules; what it cannot do stands for BUSY.
  function Given(x: El3, left: nat, delegate: bool): (r: El3)
    ensures Legal(r.ans, r.k, left, delegate)
  {
    if Legal(x.ans, x.k, left, delegate) then x else El3(0, Busy)
  }

  // EL3 moves nothing and keeps nothing of a request to delegate n granules.
  predicate Declines(x: El3, n: nat) {
    Given(x, n, true).k == 0 && Given(x, n, true).ans != InProgress
  }

  // EL3 is busy when asked to undelegate some number of granules that fit into `room`.
  ghost predicate SaysBusy(x: El3, room: nat) {
    exists n: nat :: 0 < n <= room && Given(x, n, false) == El3(0, Busy)
  }

  // The end of the tracking region (of `region` pages) that holds addr, or of the request if that is nearer.
  function RegionTop(addr: nat, end: nat, region: nat): (top: nat)
    requires addr < end && region > 0
    ensures addr < top <= end
  {
    var left := region - addr % region;
    if end - addr > left then addr + left else end
  }

  // Everything below the top lies in the tracking region of addr.
  lemma WithinRegion(addr: nat, end: nat, region: nat, p: nat)
    requires addr < end && region > 0 && addr <= p < RegionTop(addr, end, region)
    ensures p / region == addr / region
  {
    var b := addr / region;
    assert addr == region * b + addr % region;
    QuotientIs(p, region, b);
  }

  lemma Unfinished(s: St, h: nat)
    requires Inv(s) && h in s.sros
    ensures s.sros[h].done < s.sros[h].n
  {
  }

  lemma Requestable(s: St, h: nat, k: nat, ans: Answer, entry: bool)
    requires h in s.sros && s.sros[h].UndSro? && s.sros[h].done < s.sros[h].n && (s.sros[h].dev || s.sros[h].clean == s.sros[h].n)
    requires Legal(ans, k, s.sros[h].n - s.sros[h].done, false)
    ensures Enabled(s, Undelegate(h, k, ans, entry))
  {
  }

  // Pages addr up to end are in state t, but for those that somebody else took during the run.
  ghost predicate AllSpared(s: St, run: seq<Act>, t: Track, addr: nat, end: nat) {
    forall p: nat :: addr <= p < end && Spares(run, t, p) ==> Is(s, p, t)
  }

  // The delegation was left by the last action of the run as EL3 answered it.
  predicate StartedBy(s: St, run: seq<Act>, h: nat) {
    && h in s.sros && run != [] && run[|run| - 1].Delegate? && run[|run| - 1].h == h
    && var a := run[|run| - 1];
    s.sros[h] == DelSro(a.host, a.lo, a.n, a.coarse, a.k, a.coarse && 0 < a.k < a.n && Refused(a.ans), 0, a.ans == InProgress)
  }

  // The run ends with the request of h, to which EL3 answers as given, and the reply is what that calls for.
  predicate Replied(s: St, run: seq<Act>, h: nat, host: nat, el3: El3, reply: Reply) {
    && run != [] && run[|run| - 1].Delegate? && run[|run| - 1].h == h
    && var a := run[|run| - 1];
    && El3(a.k, a.ans) == Given(el3, a.n, true)
    && StartDecides(host, a.lo, a.n, a.coarse, a.k, a.ans, reply, h in s.sros && s.sros[h].DelSro? && s.sros[h].rolling)
  }

  // The run of a call ends with its request to EL3; otherwise it was interrupted before.
  predicate Asked(run: seq<Act>, h: nat) {
    run != [] && run[|run| - 1].Undelegate? && run[|run| - 1].h == h
  }

  // What the cursor has passed is done, but for pages that somebody else took during the run.
  ghost predicate PrefixSpared(s: St, run: seq<Act>, h: nat) {
    h in s.sros && forall p: nat :: Spares(run, Target(s.sros[h]), p) ==> PageDone(s, h, p)
  }

  lemma SparesBoth(a: seq<Act>, b: seq<Act>, t: Track, p: nat)
    requires Spares(a + b, t, p)
    ensures Spares(a, t, p) && Spares(b, t, p)
  {
    forall i | 0 <= i < |a| ensures !Spoils(a[i], t, p) { assert (a + b)[i] == a[i]; }
    forall i | 0 <= i < |b| ensures !Spoils(b[i], t, p) { assert (a + b)[|a| + i] == b[i]; }
  }

  // More of a run cannot make more pages spared.
  lemma SparedLonger(s: St, run: seq<Act>, more: seq<Act>, t: Track, addr: nat, end: nat)
    requires Inv(s) && Possible(s, more) && AllSpared(s, run, t, addr, end) && (t == Delegated || t == NonSecure)
    ensures AllSpared(After(s, more), run + more, t, addr, end)
  {
    hide Inv, Possible, After, Spares;
    forall p: nat | addr <= p < end && Spares(run + more, t, p)
      ensures Is(After(s, more), p, t)
    {
      SparesBoth(run, more, t, p);
      Survives(s, more, t, p);
    }
  }

  class Monitor {
    var s: St
    // The tracking regions, by number, that are tracked as one unit.
    var units: set<nat>
    // How many interrupts the commands have found pending.
    var irqs: nat
    const region: nat

    ghost predicate Valid()
      reads this
    {
      region > 0 && Inv(s)
    }

    constructor (granules: set<nat>, device: set<nat>, region: nat, units: set<nat>)
      requires region > 0
      ensures Valid() && Init(s) && this.region == region
    {
      s := St(map p | p in granules :: NonSecure, {}, {}, device, map[]);
      this.region, this.units, irqs := region, units, 0;
    }

    // One action of the machine.
    method Do(a: Act)
      requires Valid() && Enabled(s, a)
      modifies `s
      ensures Valid() && s == Step(old(s), a)
    {
      StepKeepsInv(s, a);
      s := Step(s, a);
    }

    // Whatever other processing elements do while the caller holds no lock; they may also change what is tracked as one
    // unit.
    method Others(h: nat) returns (ghost run: seq<Act>)
      requires Valid()
      modifies `s, `units
      ensures Valid() && Possible(old(s), run) && s == After(old(s), run) && AllOfOthers(run, h)
      ensures (h in s.sros <==> h in old(s).sros) && (h in s.sros ==> s.sros[h] == old(s).sros[h])
    {
      hide Inv, Enabled, Step, Possible, After;
      run := [];
      NoRun(s);
      var n: nat := *;
      while n > 0
        invariant Valid() && Possible(old(s), run) && s == After(old(s), run) && AllOfOthers(run, h)
      {
        var a: Act := *;
        if Enabled(s, a) && OfOthers(a, h) {
          RunAppend(old(s), run, a);
          Do(a);
          run := run + [a];
        }
        n := n - 1;
      }
      OthersKeepSro(old(s), run, h);
      units := *;
    }

    // Whether an interrupt is pending, which may be at any time.
    method Poll() returns (irq: bool)
      requires Valid()
      modifies `irqs
      ensures Valid() && irqs == old(irqs) + if irq then 1 else 0
    {
      irq := *;
      if irq {
        irqs := irqs + 1;
      }
    }

    // Nothing can be done with the granules at `at`: their region is tracked as one unit that does not begin there, does
    // not fit below `top` or is in neither state; or the granule is in neither state.
    ghost predicate Unfit(at: nat, top: nat, source: Track, target: Track)
      requires region > 0
      reads this
    {
      if at / region in units then
        || at % region != 0 || at + region > top
        || !(All(s.gran, at, at + region, source) || All(s.gran, at, at + region, target))
      else !Is(s, at, source) && !Is(s, at, target)
    }

    // Some of the NS granules from `at` on would be refused by EL3.
    ghost predicate Declined(at: nat, top: nat, el3: El3)
      reads this
    {
      exists n: nat :: 0 < n && at + n <= top && All(s.gran, at, at + n, NonSecure) && Declines(el3, n)
    }

    // Looks up the granules at `at`, below `top`, under their locks.  A run of granules may end early, at the end of a
    // bank or where the type of device memory changes.
    method Find(at: nat, top: nat, source: Track, target: Track) returns (r: Lookup)
      requires at < top && region > 0 && source != target
      ensures r.Unusable? <==> Unfit(at, top, source, target)
      ensures r.InTarget? ==> r.size > 0 && at + r.size <= top && All(s.gran, at, at + r.size, target)
      ensures r.Source? ==> r.n > 0 && at + r.n <= top && All(s.gran, at, at + r.n, source)
      ensures r.Source? ==> (r.coarse <==> at / region in units) && (r.coarse ==> r.n == region)
    {
      if at / region in units {
        if at % region != 0 || at + region > top {
          return Unusable;
        } else if All(s.gran, at, at + region, target) {
          return InTarget(region);
        } else if All(s.gran, at, at + region, source) {
          return Source(region, true);
        }
        return Unusable;
      } else if Is(s, at, target) {
        return InTarget(1);
      } else if Is(s, at, source) {
        var n: nat := *;
        return Source(if n > 0 && at + n <= top && All(s.gran, at, at + n, source) then n else 1, false);
      }
      return Unusable;
    }

    // GRANULE_RANGE_DELEGATE: skips granules that are delegated already, each under its own lock, and then makes one
    // EL3 request.  Others run before every lookup.
    method DelegateStart(h: nat, addr: nat, end: nat, el3: El3) returns (reply: Reply, ghost run: seq<Act>)
      requires Valid() && addr < end && h !in s.sros
      modifies this
      ensures Valid() && Possible(old(s), run) && s == After(old(s), run)
      ensures reply.Success? ==> addr < reply.x1 <= RegionTop(addr, end, region) && AllSpared(s, run, Delegated, addr, reply.x1)
      ensures reply.Error? ==> reply.x1 == addr && AllOfOthers(run, h)
      ensures var top := RegionTop(addr, end, region);
              if !AllOfOthers(run, h) then Replied(s, run, h, addr, el3, reply)
              else
                && !reply.Incomplete?
                && (reply.x1 < top ==> Unfit(reply.x1, top, NonSecure, Delegated) || Declined(reply.x1, top, el3))
      ensures reply.Incomplete? <==> h in s.sros
      ensures reply.Incomplete? ==>
                && s.sros[h].DelSro? && s.sros[h].host == addr && s.sros[h].lo + s.sros[h].n <= RegionTop(addr, end, region)
                && PrefixSpared(s, run, h)
                && StartedBy(s, run, h)
    {
      hide Inv, Enabled, Step, Possible, After, AllSpared, Unfit, Given, Declines;
      var top := RegionTop(addr, end, region);
      var cursor := addr;
      run := [];
      NoRun(s);
      SparedNone(s, run, Delegated, addr);
      while cursor < top
        invariant addr <= cursor <= top && Valid() && Possible(old(s), run) && s == After(old(s), run)
        invariant AllOfOthers(run, h) && h !in s.sros && AllSpared(s, run, Delegated, addr, cursor)
        decreases top - cursor
      {
        ghost var before := s;
        ghost var more := Others(h);
        RunConcat(old(s), run, more);
        SparedLonger(before, run, more, Delegated, addr, cursor);
        run := run + more;
        var found := Find(cursor, top, NonSecure, Delegated);
        match found {
          case Unusable => break;
          case InTarget(size) =>
            SparedMore(s, run, Delegated, addr, cursor, cursor + size);
            cursor := cursor + size;
          case Source(n, coarse) =>
            var El3(k, ans) := Given(el3, n, true);
            var act := Delegate(h, addr, cursor, n, coarse, k, ans);
            MayDelegate(s, act);
            reply := DelStart(s, h, addr, cursor, n, coarse, k, ans).1;
            if reply.Error? {
              // EL3 has moved nothing; behind a skipped prefix the error is left for the next call to find.
              DelegateFails(s, act);
              NothingGiven(s, h, addr, cursor, n, coarse, el3);
              assert Declined(cursor, top, el3);
              reply := if cursor > addr then Success(cursor) else Error(addr);
            } else {
              RunAppend(old(s), run, act);
              DelegateSpares(s, run, act);
              StartAnswer(s, h, addr, cursor, n, coarse, k, ans);
              Do(act);
              run := run + [act];
              NotOfOthers(run, |run| - 1, h);
            }
            return;
        }
      }
      reply := if cursor > addr then Success(cursor) else Error(addr);
    }

    // RMI_OP_CONTINUE of a delegation: the final cursor tells the truth about
    // a page exactly when the page, if passed before, still was DELEGATED.
    method DelegateContinue(h: nat, el3: El3) returns (reply: Reply)
      requires Valid() && h in s.sros && s.sros[h].DelSro?
      modifies this
      ensures Valid() && (reply.Incomplete? <==> h in s.sros)
      ensures var o := old(s).sros[h];
              var given := Given(el3, if o.rolling then o.done - o.rolled else o.n - o.done, !o.rolling);
              if o.rolling then
                && (reply.Error? <==> o.rolled + given.k == o.done && !Held(o, given.ans))
                && (reply.Incomplete? ==> h in s.sros && s.sros[h] == o.(rolled := o.rolled + given.k, el3 := Held(o, given.ans)))
              else Decides(o, given.k, given.ans, reply, h in s.sros && s.sros[h].DelSro? && s.sros[h].rolling)
      ensures reply.Success? ==>
                && old(s).sros[h].host < reply.x1 <= old(s).sros[h].lo + old(s).sros[h].n
                && forall p: nat :: old(s).sros[h].host <= p < reply.x1 ==> (Is(s, p, Delegated) <==> old(PageDone(s, h, p)))
      ensures reply.Error? ==>
                && reply.x1 == old(s).sros[h].host
                && All(s.gran, old(s).sros[h].lo, old(s).sros[h].lo + old(s).sros[h].n, NonSecure)
      ensures reply.Incomplete? && InPhase(s, h) ==>
                SameRange(old(s).sros[h], s.sros[h]) && forall p: nat :: PageDone(s, h, p) <==> old(PageDone(s, h, p))
    {
      hide Inv, PageDone, Given, Decides, SameRange;
      var o := s.sros[h];
      Resumable(s, h);
      if o.rolling {
        var El3(k, ans) := Given(el3, o.done - o.rolled, false);
        RollbackReply(s, h, k, ans);
        RollbackAnswer(s, h, k, ans);
        reply := RollResume(s, h, k, ans).1;
        Do(Rollback(h, k, ans));
      } else {
        var El3(k, ans) := Given(el3, o.n - o.done, true);
        ContinueReply(s, h, k, ans);
        ContinueAnswer(s, h, k, ans);
        reply := DelResume(s, h, k, ans).1;
        ContinueTells(s, Continue(h, k, ans));
        Do(Continue(h, k, ans));
      }
    }

    // Scrubs the pages of an undelegation one by one while others run; false when an interrupt stops it, which may be
    // after the last page.
    method SanitizeRun(h: nat) returns (ok: bool, ghost run: seq<Act>)
      requires Valid() && h in s.sros && s.sros[h].UndSro?
      modifies this
      ensures Valid() && Possible(old(s), run) && s == After(old(s), run) && OnlyScrubs(run, h)
      ensures h in s.sros && s.sros[h].UndSro? && old(s).sros[h].clean <= s.sros[h].clean
      ensures s.sros[h] == old(s).sros[h].(clean := s.sros[h].clean)
      ensures ok ==> s.sros[h].dev || s.sros[h].clean == s.sros[h].n
      ensures irqs == old(irqs) + (if ok then 0 else 1) && (!ok ==> s.sros[h].clean > old(s).sros[h].clean)
    {
      hide Inv, Enabled, Step, Possible, After;
      run := [];
      NoRun(s);
      while !s.sros[h].dev && s.sros[h].clean < s.sros[h].n
        invariant Valid() && Possible(old(s), run) && s == After(old(s), run) && OnlyScrubs(run, h)
        invariant h in s.sros && s.sros[h].UndSro? && old(s).sros[h].clean <= s.sros[h].clean
        invariant s.sros[h] == old(s).sros[h].(clean := s.sros[h].clean) && irqs == old(irqs)
        decreases s.sros[h].n - s.sros[h].clean
      {
        MayScrub(s, h);
        RunAppend(old(s), run, Sanitize(h));
        Do(Sanitize(h));
        run := run + [Sanitize(h)];
        ghost var more := Others(h);
        RunConcat(old(s), run, more);
        run := run + more;
        var irq := Poll();
        if irq {
          return false, run;
        }
      }
      ScrubbedAll(s, h);
      ok := true;
    }

    // One call of an undelegation that owns its pages: scrub what is left to scrub, then one EL3 request.
    method UndelegateRun(h: nat, entry: bool, el3: El3) returns (reply: Reply, ghost run: seq<Act>)
      requires Valid() && h in s.sros && s.sros[h].UndSro?
      modifies this
      ensures Valid() && Possible(old(s), run) && s == After(old(s), run) && (reply.Incomplete? <==> h in s.sros)
      ensures reply.Success? ==>
                && old(s).sros[h].host < reply.x1 <= old(s).sros[h].lo + old(s).sros[h].n
                && forall p: nat :: old(s).sros[h].host <= p < reply.x1 && Spares(run, NonSecure, p) && old(PageDone(s, h, p)) ==>
                     Is(s, p, NonSecure)
      ensures reply.Error? ==> reply.x1 == old(s).sros[h].host && RefusedBy(old(s), s, run, h)
      ensures irqs == old(irqs) + if Asked(run, h) then 0 else 1
      ensures if Asked(run, h) then
                && var o, last := old(s).sros[h], run[|run| - 1];
                && last.entry == entry && El3(last.k, last.ans) == Given(el3, o.n - o.done, false)
                && UndDecides(o, last.k, last.ans, entry, reply)
              else reply.Incomplete?
      ensures reply.Incomplete? ==>
                && SameRange(old(s).sros[h], s.sros[h])
                && forall p: nat :: Spares(run, NonSecure, p) && old(PageDone(s, h, p)) ==> PageDone(s, h, p)
    {
      hide Inv, Enabled, Step, Possible, After, PageDone, Spares, UndResume, Given;
      var clean: bool;
      clean, run := SanitizeRun(h);
      ScrubsKeepPages(old(s), run, h);
      if !clean {
        return Incomplete, run;
      }
      ghost var scrubs, now := run, s;
      var o := s.sros[h];
      Unfinished(s, h);
      var El3(k, ans) := Given(el3, o.n - o.done, false);
      Requestable(s, h, k, ans, entry);
      var act := Undelegate(h, k, ans, entry);
      UndelegateReply(s, h, k, ans, entry);
      UndelegateTells(s, act);
      UndelegateAnswer(s, h, k, ans, entry);
      reply := UndResume(s, h, k, ans, entry).1;
      RunAppend(old(s), run, act);
      Do(act);
      run := run + [act];
      RefusalRun(old(s), scrubs, act);
      forall p: nat | Spares(run, NonSecure, p) ensures Spares(scrubs, NonSecure, p) { SparesBoth(scrubs, [act], NonSecure, p); }
    }

    // Claims a run or unit of DELEGATED granules, after a prefix that was skipped, and works on it for one call.
    method UndelegateUnit(h: nat, host: nat, lo: nat, n: nat, coarse: bool, dev: bool, el3: El3,
                          ghost s0: St, ghost skipped: seq<Act>)
      returns (reply: Reply, ghost run: seq<Act>)
      requires Valid() && Inv(s0) && Possible(s0, skipped) && s == After(s0, skipped) && AllOfOthers(skipped, h)
      requires h !in s.sros && n > 0 && host <= lo && All(s.gran, lo, lo + n, Delegated)
      requires (dev ==> Range(lo, lo + n) <= s.device) && AllSpared(s, skipped, NonSecure, host, lo)
      modifies this
      ensures Valid() && Possible(s0, run) && s == After(s0, run) && !AllOfOthers(run, h) && (reply.Incomplete? <==> h in s.sros)
      ensures reply.Success? ==> host < reply.x1 <= lo + n && AllSpared(s, run, NonSecure, host, reply.x1)
      ensures reply.Error? ==>
                reply.x1 == host && Invisible(s0, s, run, h) && Asked(run, h) && Given(el3, n, false) == El3(0, Busy)
      ensures reply.Incomplete? ==>
                && s.sros[h].UndSro? && s.sros[h].host == host && s.sros[h].lo + s.sros[h].n == lo + n
                && PrefixSpared(s, run, h)
    {
      hide Inv, Enabled, Step, Possible, After, AllSpared, PageDone, Spares;
      var act := Claim(h, host, lo, n, coarse, dev);
      MayClaim(s, act);
      ClaimSpares(s, skipped, act);
      RunAppend(s0, skipped, act);
      Do(act);
      ghost var claimed, work := s, [];
      reply, work := UndelegateRun(h, true, el3);
      RunConcat(s0, skipped + [act], work);
      run := skipped + [act] + work;
      NotOfOthers(run, |skipped|, h);
      WorkSpares(claimed, s, skipped + [act], work, h, reply);
      if reply.Error? {
        RefusedInvisible(s0, skipped, act, work, s);
      }
    }

    // GRANULE_RANGE_UNDELEGATE: skips NS granules, each under its own lock, and then works on one run or unit of
    // DELEGATED ones.  Others run before every lookup and while pages are scrubbed.
    method UndelegateStart(h: nat, addr: nat, end: nat, dev: bool, el3: El3) returns (reply: Reply, ghost run: seq<Act>)
      requires Valid() && addr < end && h !in s.sros
      modifies this
      ensures Valid() && Possible(old(s), run) && s == After(old(s), run) && (reply.Incomplete? <==> h in s.sros)
      ensures reply.Success? ==> addr < reply.x1 <= RegionTop(addr, end, region) && AllSpared(s, run, NonSecure, addr, reply.x1)
      ensures reply.Error? ==> reply.x1 == addr && Invisible(old(s), s, run, h)
      ensures var top := RegionTop(addr, end, region);
              && (reply.Error? ==>
                    || Unfit(addr, top, Delegated, NonSecure) || (dev && !(Range(addr, top) <= s.device))
                    || (Asked(run, h) && SaysBusy(el3, top - addr)))
              && (reply.Success? && reply.x1 < top && AllOfOthers(run, h) ==>
                    Unfit(reply.x1, top, Delegated, NonSecure) || (dev && !(Range(reply.x1, top) <= s.device)))
      ensures reply.Incomplete? ==>
                && s.sros[h].UndSro? && s.sros[h].host == addr && s.sros[h].lo + s.sros[h].n <= RegionTop(addr, end, region)
                && PrefixSpared(s, run, h)
    {
      hide Inv, Enabled, Step, Possible, After, AllSpared, PageDone, Spares, Unfit;
      var top := RegionTop(addr, end, region);
      var cursor := addr;
      run := [];
      NoRun(s);
      SparedNone(s, run, NonSecure, addr);
      while cursor < top
        invariant addr <= cursor <= top && Valid() && Possible(old(s), run) && s == After(old(s), run)
        invariant AllOfOthers(run, h) && h !in s.sros && AllSpared(s, run, NonSecure, addr, cursor)
        decreases top - cursor
      {
        ghost var before := s;
        ghost var more := Others(h);
        RunConcat(old(s), run, more);
        SparedLonger(before, run, more, NonSecure, addr, cursor);
        run := run + more;
        var found := Find(cursor, top, Delegated, NonSecure);
        match found {
          case Unusable => break;
          case InTarget(size) =>
            SparedMore(s, run, NonSecure, addr, cursor, cursor + size);
            cursor := cursor + size;
          case Source(n, coarse) =>
            if dev && !(Range(cursor, cursor + n) <= s.device) {
              break;
            }
            reply, run := UndelegateUnit(h, addr, cursor, n, coarse, dev, el3, old(s), run);
            return;
        }
      }
      reply := if cursor > addr then Success(cursor) else Error(addr);
      OthersInvisible(old(s), run, h);
    }
  }

  // ---------------------------------------------------------------- the steps of the methods

  lemma NothingGiven(s: St, h: nat, host: nat, lo: nat, n: nat, coarse: bool, el3: El3)
    requires var x := Given(el3, n, true);
             && Enabled(s, Delegate(h, host, lo, n, coarse, x.k, x.ans))
             && DelStart(s, h, host, lo, n, coarse, x.k, x.ans).1.Error?
    ensures Declines(el3, n)
  {
    StartAnswer(s, h, host, lo, n, coarse, Given(el3, n, true).k, Given(el3, n, true).ans);
  }

  lemma NotOfOthers(run: seq<Act>, i: nat, h: nat)
    requires i < |run| && !OfOthers(run[i], h)
    ensures !AllOfOthers(run, h)
  {
  }

  lemma NoRun(s: St)
    ensures Possible(s, []) && After(s, []) == s
  {
  }

  lemma SparedNone(s: St, run: seq<Act>, t: Track, addr: nat)
    ensures AllSpared(s, run, t, addr, addr)
  {
  }

  lemma SparedMore(s: St, run: seq<Act>, t: Track, addr: nat, mid: nat, end: nat)
    requires AllSpared(s, run, t, addr, mid) && All(s.gran, mid, end, t) && mid <= end
    ensures AllSpared(s, run, t, addr, end)
  {
    forall p: nat | addr <= p < end && Spares(run, t, p)
      ensures Is(s, p, t)
    {
      assert mid <= p ==> p in s.gran;
    }
  }

  lemma MayDelegate(s: St, act: Act)
    requires act.Delegate? && act.h !in s.sros && act.n > 0 && act.host <= act.lo
    requires All(s.gran, act.lo, act.lo + act.n, NonSecure) && Legal(act.ans, act.k, act.n, true)
    ensures Enabled(s, act)
  {
  }

  lemma DelegateFails(s: St, act: Act)
    requires act.Delegate? && Enabled(s, act) && DelStart(s, act.h, act.host, act.lo, act.n, act.coarse, act.k, act.ans).1.Error?
    ensures Step(s, act) == s
  {
  }

  // The EL3 request adds the pages it published to those that were skipped.
  lemma DelegateSpares(s: St, run: seq<Act>, act: Act)
    requires act.Delegate? && Enabled(s, act) && AllSpared(s, run, Delegated, act.host, act.lo)
    ensures var (r, reply) := DelStart(s, act.h, act.host, act.lo, act.n, act.coarse, act.k, act.ans);
            && r == Step(s, act) && (reply.Incomplete? <==> act.h in r.sros)
            && (reply.Success? ==>
                  act.lo < reply.x1 <= act.lo + act.n && AllSpared(r, run + [act], Delegated, act.host, reply.x1))
            && (reply.Incomplete? ==>
                  && var o := r.sros[act.h];
                  && o.DelSro? && o.host == act.host && o.lo == act.lo && o.n == act.n
                  && PrefixSpared(r, run + [act], act.h))
  {
    var (r, reply) := DelStart(s, act.h, act.host, act.lo, act.n, act.coarse, act.k, act.ans);
    forall p: nat | Spares(run + [act], Delegated, p) && act.host <= p < act.lo
      ensures Is(r, p, Delegated)
    {
      SparesBoth(run, [act], Delegated, p);
      assert Is(s, p, Delegated);
    }
    forall p: nat | act.lo <= p < act.lo + act.n
      ensures p in s.gran
    {
    }
  }

  lemma Resumable(s: St, h: nat)
    requires Inv(s) && h in s.sros && s.sros[h].DelSro?
    ensures s.sros[h].done < s.sros[h].n && (s.sros[h].rolling ==> s.sros[h].rolled < s.sros[h].done)
  {
    assert SroOk(s.sros[h]);
  }

  lemma ContinueTells(s: St, a: Act)
    requires Inv(s) && Enabled(s, a) && (a.Continue? || a.Undelegate?)
    ensures ReplyTo(s, a).Success? ==>
              forall p: nat :: s.sros[a.h].host <= p < ReplyTo(s, a).x1 ==>
                (Is(Step(s, a), p, Target(s.sros[a.h])) <==> PageDone(s, a.h, p))
    ensures InPhase(Step(s, a), a.h) ==>
              && SameRange(s.sros[a.h], Step(s, a).sros[a.h])
              && forall p: nat :: PageDone(Step(s, a), a.h, p) <==> PageDone(s, a.h, p)
  {
    assert a.h in s.sros;
    hide Inv, Enabled, Step, PageDone, ReplyTo;
    if ReplyTo(s, a).Success? {
      forall p: nat | s.sros[a.h].host <= p < ReplyTo(s, a).x1
        ensures Is(Step(s, a), p, Target(s.sros[a.h])) <==> PageDone(s, a.h, p)
      {
        CursorIff(s, a, p);
      }
    }
    if InPhase(Step(s, a), a.h) {
      forall p: nat
        ensures PageDone(Step(s, a), a.h, p) <==> PageDone(s, a.h, p)
        ensures SameRange(s.sros[a.h], Step(s, a).sros[a.h])
      {
        ContinuePasses(s, a, p);
      }
      ContinuePasses(s, a, 0);
    }
  }

  lemma MayScrub(s: St, h: nat)
    requires h in s.sros && s.sros[h].UndSro? && !s.sros[h].dev && s.sros[h].clean < s.sros[h].n
    ensures Enabled(s, Sanitize(h))
    ensures h in Step(s, Sanitize(h)).sros && Step(s, Sanitize(h)).sros[h] == s.sros[h].(clean := s.sros[h].clean + 1)
  {
  }

  lemma ScrubbedAll(s: St, h: nat)
    requires Inv(s) && h in s.sros && s.sros[h].UndSro? && (s.sros[h].dev || s.sros[h].clean >= s.sros[h].n)
    ensures s.sros[h].dev || s.sros[h].clean == s.sros[h].n
  {
    assert SroOk(s.sros[h]);
  }

  // While pages are scrubbed the operation is in flight, so nothing but the actions that spoil a page undoes it.
  lemma {:induction false} ScrubsInFlight(s: St, run: seq<Act>, h: nat)
    requires Possible(s, run) && OnlyScrubs(run, h) && h in s.sros && s.sros[h].UndSro?
    ensures Throughout(s, run, h)
    decreases |run|
  {
    hide Enabled;
    if run != [] {
      if OfOthers(run[0], h) {
        OthersKeep(s, run[0], h);
      }
      ScrubsInFlight(Step(s, run[0]), run[1..], h);
    }
  }

  lemma ScrubsKeepPages(s: St, run: seq<Act>, h: nat)
    requires Inv(s) && Possible(s, run) && OnlyScrubs(run, h) && h in s.sros && s.sros[h].UndSro? && h in After(s, run).sros
    ensures forall p: nat :: Spares(run, NonSecure, p) && PageDone(s, h, p) ==> PageDone(After(s, run), h, p)
  {
    hide Inv, Possible, After, PageDone, Spares, OnlyScrubs;
    ScrubsInFlight(s, run, h);
    forall p: nat | Spares(run, NonSecure, p) && PageDone(s, h, p)
      ensures PageDone(After(s, run), h, p)
    {
      PageRun(s, run, h, p);
    }
  }

  lemma UndelegateTells(s: St, a: Act)
    requires Inv(s) && Enabled(s, a) && a.Undelegate?
    ensures var (r, reply) := UndResume(s, a.h, a.k, a.ans, a.entry);
            && r == Step(s, a)
            && (reply.Success? ==>
                  forall p: nat :: s.sros[a.h].host <= p < reply.x1 ==> (Is(r, p, NonSecure) <==> PageDone(s, a.h, p)))
            && (a.h in r.sros ==>
                  && r.sros[a.h].UndSro? && SameRange(s.sros[a.h], r.sros[a.h])
                  && forall p: nat :: PageDone(r, a.h, p) <==> PageDone(s, a.h, p))
  {
    hide Inv, PageDone;
    ContinueTells(s, a);
  }

  // The run of an undelegation that was refused: pages were scrubbed, then EL3 moved none.
  ghost predicate RefusedBy(s0: St, s: St, run: seq<Act>, h: nat) {
    && run != []
    && var pre, last := run[..|run| - 1], run[|run| - 1];
    && Possible(s0, pre) && OnlyScrubs(pre, h) && last.Undelegate? && last.h == h && Enabled(After(s0, pre), last)
    && var (r, reply) := UndResume(After(s0, pre), h, last.k, last.ans, last.entry);
    && r == s && reply.Error?
  }

  lemma RefusalRun(s0: St, scrubs: seq<Act>, act: Act)
    requires act.Undelegate? && Possible(s0, scrubs) && OnlyScrubs(scrubs, act.h) && Enabled(After(s0, scrubs), act)
    requires Step(After(s0, scrubs), act) == UndResume(After(s0, scrubs), act.h, act.k, act.ans, act.entry).0
    ensures UndResume(After(s0, scrubs), act.h, act.k, act.ans, act.entry).1.Error? ==>
              RefusedBy(s0, Step(After(s0, scrubs), act), scrubs + [act], act.h)
  {
    hide Enabled, Step, UndResume, Possible, After;
    assert (scrubs + [act])[..|scrubs + [act]| - 1] == scrubs;
  }

  lemma MayClaim(s: St, act: Act)
    requires act.Claim? && act.h !in s.sros && act.n > 0 && act.host <= act.lo && All(s.gran, act.lo, act.lo + act.n, Delegated)
    requires act.dev ==> Range(act.lo, act.lo + act.n) <= s.device
    ensures Enabled(s, act)
  {
  }

  lemma ClaimSpares(s: St, run: seq<Act>, act: Act)
    requires act.Claim? && Enabled(s, act) && AllSpared(s, run, NonSecure, act.host, act.lo)
    ensures var r := Step(s, act);
            && act.h in r.sros && r.sros[act.h] == UndSro(act.host, act.lo, act.n, act.coarse, act.dev, 0, 0, false)
            && PrefixSpared(r, run + [act], act.h)
  {
    var r := Step(s, act);
    forall p: nat | Spares(run + [act], NonSecure, p)
      ensures PageDone(r, act.h, p)
    {
      SparesBoth(run, [act], NonSecure, p);
      if act.host <= p < act.lo {
        assert Is(s, p, NonSecure);
      }
    }
  }

  // What a call leaves spared of its own run is spared of the whole.
  lemma WorkSpares(s0: St, s: St, done: seq<Act>, work: seq<Act>, h: nat, reply: Reply)
    requires PrefixSpared(s0, done, h) && s0.sros[h].UndSro?
    requires reply.Success? ==>
               forall p: nat :: s0.sros[h].host <= p < reply.x1 && Spares(work, NonSecure, p) && PageDone(s0, h, p) ==>
                 Is(s, p, NonSecure)
    requires reply.Incomplete? ==>
               && h in s.sros && SameRange(s0.sros[h], s.sros[h])
               && forall p: nat :: Spares(work, NonSecure, p) && PageDone(s0, h, p) ==> PageDone(s, h, p)
    ensures reply.Success? ==> AllSpared(s, done + work, NonSecure, s0.sros[h].host, reply.x1)
    ensures reply.Incomplete? ==> PrefixSpared(s, done + work, h)
  {
    hide PageDone, Spares;
    forall p: nat | Spares(done + work, NonSecure, p)
      ensures Spares(work, NonSecure, p) && PageDone(s0, h, p)
    {
      SparesBoth(done, work, NonSecure, p);
    }
  }

  // Everything ended as if operation h had never been: the same run without the actions of h leads to the same state,
  // apart from contents that were scrubbed.
  ghost predicate Invisible(s0: St, s: St, run: seq<Act>, h: nat) {
    Possible(s0, Without(run, h)) && s == After(s0, Without(run, h)).(dirty := s.dirty)
  }

  lemma {:induction false} WithoutOthers(run: seq<Act>, h: nat)
    requires AllOfOthers(run, h)
    ensures Without(run, h) == run
  {
    if run != [] {
      WithoutOthers(run[1..], h);
    }
  }

  lemma {:induction false} WithoutConcat(a: seq<Act>, b: seq<Act>, h: nat)
    ensures Without(a + b, h) == Without(a, h) + Without(b, h)
  {
    if a == [] {
      assert a + b == b;
    } else {
      assert (a + b)[0] == a[0] && (a + b)[1..] == a[1..] + b;
      WithoutConcat(a[1..], b, h);
    }
  }

  lemma OthersInvisible(s0: St, run: seq<Act>, h: nat)
    requires Possible(s0, run) && AllOfOthers(run, h)
    ensures Invisible(s0, After(s0, run), run, h)
  {
    WithoutOthers(run, h);
  }

  lemma RefusedInvisible(s0: St, skipped: seq<Act>, claim: Act, work: seq<Act>, s: St)
    requires Inv(s0) && claim.Claim? && Possible(s0, skipped) && AllOfOthers(skipped, claim.h)
    requires Enabled(After(s0, skipped), claim)
    requires RefusedBy(Step(After(s0, skipped), claim), s, work, claim.h)
    ensures Invisible(s0, s, skipped + [claim] + work, claim.h)
  {
    hide Inv, Enabled, Step, UndResume, Possible, After;
    var h, pre, last := claim.h, work[..|work| - 1], work[|work| - 1];
    RunKeepsInv(s0, skipped);
    RefusalIsInvisible(After(s0, skipped), claim, pre, last.k, last.ans, last.entry);
    WithoutOthers(skipped, h);
    assert work == pre + [last];
    WithoutConcat(pre, [last], h);
    WithoutConcat(skipped + [claim], work, h);
    WithoutConcat(skipped, [claim], h);
    RunConcat(s0, skipped, Without(pre, h));
    assert Without([claim], h) == [] && Without([last], h) == [];
    assert Without(skipped + [claim] + work, h) == skipped + Without(pre, h);
  }
}
