/**
  * What an operation makes of the answers of EL3: when it goes on, is rolled back, fails or succeeds.
  */
module GranuleAnswers {
  import opened Granules
  import opened GranuleProofs
  import opened GranuleTheorems
  import opened GranuleCursor

  // EL3 refused the request, for now or for good.
  predicate Refused(ans: Answer) {
    ans == Again || ans == Failed
  }

  // EL3 holds an unfinished request after this answer.
  predicate Held(o: Sro, ans: Answer) {
    ans == InProgress || (o.el3 && ans == Busy)
  }

  // ---------------------------------------------------------------- one call

  // The first request of a delegation, for n pages at lo.  It fails if EL3 moved nothing and holds nothing, and has to be
  // rolled back if EL3 refused with part of a unit moved.
  predicate StartDecides(host: nat, lo: nat, n: nat, coarse: bool, k: nat, ans: Answer, reply: Reply, rolls: bool) {
    && (rolls <==> coarse && 0 < k < n && Refused(ans))
    && (reply.Error? <==> k == 0 && ans != InProgress)
    && (reply.Success? <==> ans != InProgress && k > 0 && (coarse ==> k == n))
    && (reply.Success? ==> reply.x1 == lo + k) && (reply.Error? ==> reply.x1 == host)
  }

  // A delegation with `o` pending, of which EL3 has now moved k pages more.  Part of a unit is rolled back exactly when EL3
  // refused the rest; it fails exactly when EL3 refused and the Host's cursor has not moved; it ends with SUCCESS
  // exactly when EL3 holds nothing and everything has moved or, tracked finely, the cursor has.
  predicate Decides(o: Sro, k: nat, ans: Answer, reply: Reply, rolls: bool)
    requires o.DelSro?
  {
    var moved := o.done + k;
    && (rolls <==> o.coarse && 0 < moved < o.n && Refused(ans))
    && (reply.Error? <==> Refused(ans) && moved == 0 && (o.coarse || o.lo == o.host))
    && (reply.Success? <==> !Held(o, ans) && (moved == o.n || (!o.coarse && o.lo + moved > o.host)))
    && (reply.Success? ==> reply.x1 == o.lo + moved) && (reply.Error? ==> reply.x1 == o.host)
  }

  // An undelegation fails exactly when EL3 is busy on the Host's first call and the cursor has not moved.
  predicate UndDecides(o: Sro, k: nat, ans: Answer, entry: bool, reply: Reply)
    requires o.UndSro?
  {
    var moved := o.done + k;
    var stuck := !o.coarse && moved == 0 && o.lo == o.host;
    && (reply.Error? <==> stuck && entry && ans == Busy && !o.el3)
    && (reply.Success? <==> !Held(o, ans) && !stuck && (o.coarse ==> moved == o.n))
    && (reply.Success? ==> reply.x1 == o.lo + moved) && (reply.Error? ==> reply.x1 == o.host)
  }

  lemma StartAnswer(s: St, h: nat, host: nat, lo: nat, n: nat, coarse: bool, k: nat, ans: Answer)
    requires Enabled(s, Delegate(h, host, lo, n, coarse, k, ans))
    ensures var (r, reply) := DelStart(s, h, host, lo, n, coarse, k, ans);
            && StartDecides(host, lo, n, coarse, k, ans, reply, h in r.sros && r.sros[h].DelSro? && r.sros[h].rolling)
            && (reply.Incomplete? ==>
                  && h in r.sros
                  && r.sros[h] == DelSro(host, lo, n, coarse, k, coarse && 0 < k < n && Refused(ans), 0, ans == InProgress))
  {
  }

  lemma ContinueAnswer(s: St, h: nat, k: nat, ans: Answer)
    requires Inv(s) && Enabled(s, Continue(h, k, ans))
    ensures var o, (r, reply) := s.sros[h], DelResume(s, h, k, ans);
            var rolls := h in r.sros && r.sros[h].DelSro? && r.sros[h].rolling;
            && Decides(o, k, ans, reply, rolls)
            && (reply.Incomplete? ==>
                  h in r.sros && r.sros[h] == DelSro(o.host, o.lo, o.n, o.coarse, o.done + k, rolls, 0, Held(o, ans)))
  {
    assert SroOk(s.sros[h]);
  }

  // A rollback ends, with the error, exactly when everything has been moved back and EL3 holds nothing.
  lemma RollbackAnswer(s: St, h: nat, k: nat, ans: Answer)
    requires Inv(s) && Enabled(s, Rollback(h, k, ans))
    ensures var o, (r, reply) := s.sros[h], RollResume(s, h, k, ans);
            && (reply.Error? <==> o.rolled + k == o.done && !Held(o, ans)) && (reply.Error? ==> reply.x1 == o.host)
            && (!reply.Error? ==>
                  && reply.Incomplete? && h in r.sros
                  && r.sros[h] == DelSro(o.host, o.lo, o.n, o.coarse, o.done, true, o.rolled + k, Held(o, ans)))
  {
    assert SroOk(s.sros[h]);
  }

  lemma UndelegateAnswer(s: St, h: nat, k: nat, ans: Answer, entry: bool)
    requires Inv(s) && Enabled(s, Undelegate(h, k, ans, entry))
    ensures var o, (r, reply) := s.sros[h], UndResume(s, h, k, ans, entry);
            && UndDecides(o, k, ans, entry, reply)
            && (reply.Incomplete? ==>
                  && h in r.sros
                  && r.sros[h] == UndSro(o.host, o.lo, o.n, o.coarse, o.dev, o.done + k, o.clean, Held(o, ans)))
  {
    assert SroOk(s.sros[h]);
  }

  // ---------------------------------------------------------------- over a run

  // EL3 refuses operation h nothing.
  ghost predicate Willing(run: seq<Act>, h: nat) {
    forall i :: 0 <= i < |run| && run[i].Continue? && run[i].h == h ==> !Refused(run[i].ans)
  }

  // Operation h stays in its delegation phase until it ends, and ends with SUCCESS.
  ghost predicate EndsWell(s: St, run: seq<Act>, h: nat)
    requires Possible(s, run)
    decreases |run|
  {
    InPhase(s, h) &&
    (run == [] || (run[0].Continue? && run[0].h == h && ReplyTo(s, run[0]).Success?) || EndsWell(Step(s, run[0]), run[1..], h))
  }

  lemma WillingStep(s: St, a: Act, h: nat)
    requires Inv(s) && Enabled(s, a) && InPhase(s, h) && s.sros[h].DelSro?
    requires a.Continue? && a.h == h ==> !Refused(a.ans)
    ensures || (a.Continue? && a.h == h && ReplyTo(s, a).Success?)
            || (InPhase(Step(s, a), h) && Step(s, a).sros[h].DelSro?)
  {
    hide Inv;
    if a.Continue? && a.h == h {
      hide DelResume;
      ContinueAnswer(s, h, a.k, a.ans);
    } else if OfOthers(a, h) {
      OthersKeep(s, a, h);
    }
  }

  // A delegation that EL3 never refuses is never rolled back, and if it ends it ends with SUCCESS, whatever else runs.
  lemma {:induction false} WillingEndsWell(s: St, run: seq<Act>, h: nat)
    requires Inv(s) && Possible(s, run) && InPhase(s, h) && s.sros[h].DelSro? && Willing(run, h)
    ensures EndsWell(s, run, h)
    decreases |run|
  {
    hide Inv, Enabled, Step, ReplyTo, InPhase;
    if run != [] {
      assert run[0].Continue? && run[0].h == h ==> !Refused(run[0].ans);
      WillingStep(s, run[0], h);
      StepKeepsInv(s, run[0]);
      if !(run[0].Continue? && run[0].h == h && ReplyTo(s, run[0]).Success?) {
        WillingEndsWell(Step(s, run[0]), run[1..], h);
      }
    }
  }
}
