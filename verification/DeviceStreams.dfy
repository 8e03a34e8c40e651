/**
  * Stream operations over the life of PDEVs: when one is completed exactly once.
  */
module DeviceStreams {
  import opened VdevRanges
  import opened VdevSlots
  import opened PdevComm
  import opened Devices
  import opened DeviceProofs
  import opened DeviceTheorems

  // ---------------------------------------------------------------- a command is an event to a PDEV

  // What a command is to PDEV p: one event, or none if it does not touch its communication.
  function EventAt(a: Act, p: nat): (es: seq<Event>)
    ensures |es| <= 1
  {
    match a
    case SetKey(x) => if x == p then [KeySet] else []
    case PdevTalk(x, out, left) => if x == p then [Exchange(out, !left)] else []
    case PdevAbort(x) => if x == p then [Cut] else []
    case PdevStop(x) => if x == p then [OpBegun(Stop)] else []
    case StreamConnect(x, y, _) => if x == p || y == p then [OpBegun(Connect)] else []
    case StreamDisconnect(x, y) => if x == p || y == p then [OpBegun(Disconnect)] else []
    case StreamRefresh(x, y) => if x == p || y == p then [OpBegun(KeyRefresh)] else []
    case StreamEnd(x, y) => if x == p || y == p then [StreamEnded] else []
    case _ => []
  }

  // What became of the communication of PDEV p in a step is what the handler of the event does, and nothing when there
  // is no event.
  predicate ByEvent(s: St, a: Act, t: St, p: nat)
    requires p in s.pdev && p in t.pdev
  {
    var es := EventAt(a, p);
    if es == [] then t.pdev[p].link == s.pdev[p].link
    else Accept(s.pdev[p].link, es[0]) && t.pdev[p].link == Handle(s.pdev[p].link, es[0])
  }

  lemma PdevActIsEvent(s: St, a: Act, p: nat)
    requires Enabled(s, a) && IsPdevAct(a) && p in s.pdev && p in PdevStep(s, a).pdev
    ensures ByEvent(s, a, PdevStep(s, a), p)
  {
    hide Completed, Aborted;
  }

  lemma StreamActIsEvent(s: St, a: Act, p: nat)
    requires Enabled(s, a) && IsStreamAct(a) && p in s.pdev && p in StreamStep(s, a).pdev
    ensures ByEvent(s, a, StreamStep(s, a), p)
  {
    hide Completed, Aborted, Releases;
  }

  lemma VdevActIsEvent(s: St, a: Act, p: nat)
    requires Enabled(s, a) && IsVdevAct(a) && p in s.pdev && p in VdevStep(s, a).pdev
    ensures ByEvent(s, a, VdevStep(s, a), p)
  {
    hide Sorted, Clash, Covered, Talked, Finished, Exhausted, Legal, MayBegin, Accept, Handle;
  }

  // The commands act on a PDEV through the handlers of its communication, within what those allow, and in no other
  // way.
  lemma CommandIsEvent(s: St, a: Act, p: nat)
    requires Enabled(s, a) && p in s.pdev && p in Step(s, a).pdev
    ensures ByEvent(s, a, Step(s, a), p)
  {
    hide Enabled, PdevStep, StreamStep, VdevStep, Accept, Handle;
    if IsPdevAct(a) {
      PdevActIsEvent(s, a, p);
    } else if IsStreamAct(a) {
      StreamActIsEvent(s, a, p);
    } else if IsVdevAct(a) {
      VdevActIsEvent(s, a, p);
    }
  }

  // The history of PDEV p: what came since it was created.
  function Story(acts: seq<Act>, p: nat, sofar: seq<Event>): (es: seq<Event>)
    decreases |acts|
  {
    if acts == [] then sofar
    else if acts[0].PdevCreate? && acts[0].p == p then Story(acts[1..], p, [])
    else Story(acts[1..], p, sofar + EventAt(acts[0], p))
  }

  ghost predicate Follows(l: Link, es: seq<Event>) {
    Accepts(Fresh(l.kind), es) && Handled(Fresh(l.kind), es) == l
  }

  lemma FollowsStep(s: St, a: Act, p: nat, es: seq<Event>)
    requires Enabled(s, a) && p in s.pdev && p in Step(s, a).pdev && Follows(s.pdev[p].link, es)
    ensures Follows(Step(s, a).pdev[p].link, es + EventAt(a, p))
  {
    hide Enabled, Step, Accepts, Handled, Accept;
    CommandIsEvent(s, a, p);
    if EventAt(a, p) == [] {
      assert es + [] == es;
    } else {
      OneMore(Fresh(s.pdev[p].link.kind), es, EventAt(a, p)[0]);
      assert EventAt(a, p) == [EventAt(a, p)[0]];
    }
  }

  lemma Appears(s: St, a: Act, p: nat)
    requires Enabled(s, a) && p !in s.pdev
    ensures p in Step(s, a).pdev ==> a.PdevCreate? && a.p == p && Step(s, a).pdev[p].link == Fresh(a.kind)
    ensures a.PdevCreate? && a.p == p ==> p in Step(s, a).pdev
  {
  }

  // In every run, a PDEV is what its history makes it.
  lemma {:induction false} FollowsStory(s: St, acts: seq<Act>, p: nat, es: seq<Event>)
    requires Possible(s, acts) && p in After(s, acts).pdev && (p in s.pdev ==> Follows(s.pdev[p].link, es))
    ensures Follows(After(s, acts).pdev[p].link, Story(acts, p, es))
    decreases |acts|
  {
    hide Enabled, Step, Follows, EventAt;
    if acts != [] {
      var t := Step(s, acts[0]);
      if p !in s.pdev {
        Appears(s, acts[0], p);
        if p in t.pdev {
          Born(acts[0].kind);
          FollowsStory(t, acts[1..], p, []);
        } else {
          FollowsStory(t, acts[1..], p, es + EventAt(acts[0], p));
        }
      } else if p !in t.pdev {
        NotAgain(s, acts[0], p);
        FollowsStory(t, acts[1..], p, es + EventAt(acts[0], p));
      } else {
        FollowsStep(s, acts[0], p, es);
        NotAgain(s, acts[0], p);
        FollowsStory(t, acts[1..], p, es + EventAt(acts[0], p));
      }
    }
  }

  lemma Born(kind: Kind)
    ensures Follows(Fresh(kind), []) && CountLost(Fresh(kind), []) == 0
  {
  }

  lemma NotAgain(s: St, a: Act, p: nat)
    requires Enabled(s, a) && p in s.pdev
    ensures !(a.PdevCreate? && a.p == p)
  {
  }

  // ---------------------------------------------------------------- what a history tells about a machine

  // In every run: a PDEV other than a root port is READY only if its key was set since it was created, and one that is
  // STOPPED was asked to stop and has ended that with the app unwound.
  lemma ReadyAndStopped(acts: seq<Act>, p: nat)
    requires Possible(BOOT, acts) && p in After(BOOT, acts).pdev
    ensures var l, es := After(BOOT, acts).pdev[p].link, Story(acts, p, []);
            && (l.state == Ready && l.kind != RootPort ==> KeySet in es)
            && (l.state == Stopped ==> exists i: nat :: StopEnds(Fresh(l.kind), es, i) && OpBegun(Stop) in es[..i])
  {
    hide Enabled, Step, Possible, After, Story, Accepts, Handled;
    var l, es := After(BOOT, acts).pdev[p].link, Story(acts, p, []);
    FollowsStory(BOOT, acts, p, []);
    if l.state == Ready && l.kind != RootPort && KeySet !in es {
      ReadyHasKey(l.kind, es);
    }
    if l.state == Stopped {
      StoppedWasAsked(l.kind, es);
    }
  }

  // ---------------------------------------------------------------- which command forgets

  // Stream h is one of PDEV p, as its head or its root port, and has not settled.
  predicate Unsettled(s: St, p: nat, h: nat) {
    && h in s.pdev && s.pdev[h].stream.taken && (h == p || s.pdev[h].stream.pd2 == p)
    && s.pdev[h].stream.state != Connected
  }

  ghost predicate Waits(s: St, p: nat) {
    exists h :: Unsettled(s, p, h)
  }

  // A stream operation goes on or is over, on a PDEV that is READY or in ERROR.
  predicate OpOk(l: Link) {
    && (Owes(l) ==> ReadyOrError(l) && l.op != StreamAborted)
    && (IsStreamOp(l.op) ==> Busy(l.comm)) && (l.op == StreamComplete ==> l.comm == Idle)
  }

  // Streams lead from endpoints to root ports.
  predicate EndsOk(s: St, p: nat)
    requires p in s.pdev
  {
    var x := s.pdev[p];
    x.stream.taken ==> x.link.kind == OffChip && x.stream.pd2 in s.pdev && s.pdev[x.stream.pd2].link.kind == RootPort
  }

  // A PDEV that owes the completion of a stream operation has a stream that waits for it.
  ghost predicate OwedOk(s: St, p: nat)
    requires p in s.pdev
  {
    OpOk(s.pdev[p].link) && EndsOk(s, p) && (Owes(s.pdev[p].link) ==> Waits(s, p))
  }

  ghost predicate OwedInv(s: St) {
    forall p :: p in s.pdev ==> OwedOk(s, p)
  }

  lemma OpOkStep(l: Link, e: Event)
    requires OpOk(l) && Accept(l, e)
    requires e.OpBegun? ==> (IsStreamOp(e.op) && ReadyOrError(l)) || (e.op == Stop && !Owes(l))
    ensures OpOk(Handle(l, e))
    ensures Owes(Handle(l, e)) ==> Owes(l) || (e.OpBegun? && e.op != Stop)
  {
  }

  // A PDEV that owes something has a stream.
  lemma OwesIsCounted(s: St, p: nat)
    requires Inv(s) && OwedInv(s) && p in s.pdev && Owes(s.pdev[p].link)
    ensures s.pdev[p].streams > 0
  {
    assert OwedOk(s, p);
    var h :| Unsettled(s, p, h);
    assert h in StreamsOf(s, p) && CountOk(s, p);
  }

  // Outside of stream commands nothing changes which streams there are.
  predicate StreamsKept(s: St, a: Act, t: St) {
    && (forall p :: p in s.pdev ==> (p in t.pdev <==> a != PdevDestroy(p)))
    && (forall p :: p in s.pdev && p in t.pdev ==>
          t.pdev[p].stream == s.pdev[p].stream && t.pdev[p].link.kind == s.pdev[p].link.kind)
    && (forall p :: p in t.pdev && p !in s.pdev ==>
          t.pdev[p].link == Fresh(t.pdev[p].link.kind) && !t.pdev[p].stream.taken)
    && (a.PdevDestroy? ==> a.p in s.pdev && s.pdev[a.p].link.state == Stopped)
  }

  lemma PdevActKeeps(s: St, a: Act)
    requires Enabled(s, a) && IsPdevAct(a)
    ensures StreamsKept(s, a, PdevStep(s, a))
  {
  }

  lemma VdevActKeeps(s: St, a: Act)
    requires Enabled(s, a) && IsVdevAct(a)
    ensures StreamsKept(s, a, VdevStep(s, a))
  {
    hide Sorted, Clash, Covered, Talked, Finished, Exhausted, Legal, MayBegin;
  }

  lemma OtherActKeeps(s: St, a: Act)
    requires Enabled(s, a) && !IsStreamAct(a)
    ensures StreamsKept(s, a, Step(s, a))
  {
    hide Enabled, PdevStep, VdevStep;
    if IsPdevAct(a) {
      PdevActKeeps(s, a);
    } else if IsVdevAct(a) {
      VdevActKeeps(s, a);
    }
  }

  // What is destroyed is the end of no stream.
  lemma DestroyedHasNone(s: St, p: nat, h: nat)
    requires Inv(s) && p in s.pdev && s.pdev[p].link.state == Stopped && h in s.pdev && s.pdev[h].stream.taken
    ensures h != p && s.pdev[h].stream.pd2 != p
  {
    assert StopOk(s.pdev[p]) && CountOk(s, p);
    assert StreamsOf(s, p) == {};
    assert h !in StreamsOf(s, p);
  }

  lemma OwedOther(s: St, a: Act, p: nat)
    requires Inv(s) && OwedInv(s) && Enabled(s, a) && !IsStreamAct(a) && p in Step(s, a).pdev
    ensures OwedOk(Step(s, a), p)
  {
    hide Inv, Enabled, Step, Accept, Handle, Waits;
    var t := Step(s, a);
    OtherActKeeps(s, a);
    if p in s.pdev {
      assert OwedOk(s, p);
      CommandIsEvent(s, a, p);
      StopOwesNothing(s, a, p);
      if EventAt(a, p) != [] {
        OpOkStep(s.pdev[p].link, EventAt(a, p)[0]);
      }
      if a.PdevDestroy? && s.pdev[p].stream.taken {
        DestroyedHasNone(s, a.p, p);
      }
      if Owes(t.pdev[p].link) {
        WaitsKept(s, a, p);
      }
    }
  }

  lemma StopOwesNothing(s: St, a: Act, p: nat)
    requires Inv(s) && OwedInv(s) && Enabled(s, a) && p in s.pdev
    ensures a == PdevStop(p) ==> !Owes(s.pdev[p].link)
  {
    hide Inv, OwedInv;
    if a == PdevStop(p) && Owes(s.pdev[p].link) {
      OwesIsCounted(s, p);
    }
  }

  lemma WaitsKept(s: St, a: Act, p: nat)
    requires Inv(s) && Enabled(s, a) && !IsStreamAct(a) && Waits(s, p)
    ensures Waits(Step(s, a), p)
  {
    hide Inv, Enabled, Step;
    OtherActKeeps(s, a);
    var h :| Unsettled(s, p, h);
    if a.PdevDestroy? {
      DestroyedHasNone(s, a.p, h);
    }
    assert Unsettled(Step(s, a), p, h);
  }

  // ---------------------------------------------------------------- stream commands

  // Only p and q change, by no more than their links and the stream of p, which leads to q if it is taken.
  predicate OnlyEnds(s: St, t: St, p: nat, q: nat) {
    && p in s.pdev && q in s.pdev && p != q && t.pdev.Keys == s.pdev.Keys
    && (forall x :: x in s.pdev ==> t.pdev[x].link.kind == s.pdev[x].link.kind)
    && (forall x :: x in s.pdev && x != p ==> t.pdev[x].stream == s.pdev[x].stream)
    && (forall x :: x in s.pdev && x != p && x != q ==> t.pdev[x].link == s.pdev[x].link)
    && (t.pdev[p].stream.taken ==> t.pdev[p].stream.pd2 == q) && (s.pdev[p].stream.taken ==> s.pdev[p].stream.pd2 == q)
  }

  lemma BothBeginEnds(s: St, p: nat, q: nat, op: Op, stream: Stream, added: nat)
    requires p in s.pdev && q in s.pdev && p != q && (stream.taken ==> stream.pd2 == q)
    requires s.pdev[p].stream.taken ==> s.pdev[p].stream.pd2 == q
    ensures OnlyEnds(s, BothBegin(s, p, q, op, stream, added), p, q)
  {
  }

  lemma EndedEnds(s: St, p: nat, q: nat)
    requires CanStream(s, p, q)
    ensures OnlyEnds(s, Ended(s, p, q), p, q)
  {
    hide Releases;
  }

  lemma StreamActLinks(s: St, a: Act)
    requires Enabled(s, a) && IsStreamAct(a)
    ensures OnlyEnds(s, Step(s, a), a.p, a.q)
  {
    var x := s.pdev[a.p].stream;
    match a {
      case StreamConnect(p, q, ranges) =>
        OneKind(s, p, q);
        BothBeginEnds(s, p, q, Connect, Stream(true, Connecting, q, ranges), 1);
      case StreamDisconnect(p, q) => BothBeginEnds(s, p, q, Disconnect, x.(state := Disconnecting), 0);
      case StreamRefresh(p, q) => BothBeginEnds(s, p, q, KeyRefresh, x.(state := Refreshing), 0);
      case StreamEnd(p, q) => EndedEnds(s, p, q);
    }
  }

  lemma OneKind(s: St, p: nat, q: nat)
    requires p in s.pdev && q in s.pdev && s.pdev[p].link.kind != s.pdev[q].link.kind
    ensures p != q
  {
  }

  lemma StreamActEnds(s: St, a: Act)
    requires Enabled(s, a) && IsStreamAct(a)
    ensures a.StreamEnd? ==> Step(s, a).pdev[a.p].link.op == NoOp && Step(s, a).pdev[a.q].link.op == NoOp
    ensures !a.StreamEnd? ==> Step(s, a).pdev[a.p].stream.taken && Step(s, a).pdev[a.p].stream.state != Connected
    ensures !a.StreamEnd? ==> ReadyOrError(s.pdev[a.p].link) && ReadyOrError(s.pdev[a.q].link)
    ensures a.StreamConnect? ==> s.pdev[a.p].link.kind == OffChip && s.pdev[a.q].link.kind == RootPort
    ensures Step(s, a).pdev[a.p].stream.taken && !a.StreamConnect? ==> s.pdev[a.p].stream.taken
  {
    hide Releases;
  }

  lemma WaitsForStream(s: St, a: Act, p: nat)
    requires OwedInv(s) && Enabled(s, a) && IsStreamAct(a) && p in s.pdev && p in Step(s, a).pdev
    ensures Owes(Step(s, a).pdev[p].link) ==> Waits(Step(s, a), p)
  {
    hide Enabled, Step, OpOk, EndsOk;
    var t := Step(s, a);
    StreamActLinks(s, a);
    StreamActEnds(s, a);
    assert OwedOk(s, p);
    if p == a.p || p == a.q {
      if !a.StreamEnd? {
        assert Unsettled(t, p, a.p);
      }
    } else if Owes(s.pdev[p].link) {
      var h :| Unsettled(s, p, h);
      assert Unsettled(t, p, h);
    }
  }

  lemma OwedStream(s: St, a: Act, p: nat)
    requires OwedInv(s) && Enabled(s, a) && IsStreamAct(a) && p in Step(s, a).pdev
    ensures OwedOk(Step(s, a), p)
  {
    hide Enabled, Step, Accept, Handle, Waits, OpOk, Owes, ReadyOrError;
    StreamActLinks(s, a);
    StreamActEnds(s, a);
    assert OwedOk(s, p) && OwedOk(s, a.p);
    CommandIsEvent(s, a, p);
    if EventAt(a, p) != [] {
      OpOkStep(s.pdev[p].link, EventAt(a, p)[0]);
    }
    WaitsForStream(s, a, p);
  }

  lemma OwedStep(s: St, a: Act)
    requires Inv(s) && OwedInv(s) && Enabled(s, a)
    ensures OwedInv(Step(s, a))
  {
    hide Inv, Enabled, Step, OwedOk;
    forall p | p in Step(s, a).pdev
      ensures OwedOk(Step(s, a), p)
    {
      if IsStreamAct(a) {
        OwedStream(s, a, p);
      } else {
        OwedOther(s, a, p);
      }
    }
  }

  lemma {:induction false} OwedAfter(s: St, acts: seq<Act>)
    requires Inv(s) && OwedInv(s) && Possible(s, acts)
    ensures OwedInv(After(s, acts)) && Inv(After(s, acts))
    decreases |acts|
  {
    hide Inv, OwedInv, Enabled, Step;
    if acts != [] {
      StepKeepsInv(s, acts[0]);
      OwedStep(s, acts[0]);
      OwedAfter(Step(s, acts[0]), acts[1..]);
    }
  }

  // The command disconnects a stream whose root port p has ended the operation of another stream that STREAM_COMPLETE
  // has not collected.
  predicate Forgets(s: St, a: Act, p: nat) {
    p in s.pdev && a.StreamDisconnect? && a.q == p && s.pdev[p].link.op == StreamComplete
  }

  // In every run, that is the one command that makes a PDEV forget a stream operation it owes.
  lemma OnlyDisconnectForgets(acts: seq<Act>, a: Act, p: nat)
    requires Possible(BOOT, acts) && Enabled(After(BOOT, acts), a) && p in After(BOOT, acts).pdev && EventAt(a, p) != []
    ensures var s := After(BOOT, acts);
            Loses(s.pdev[p].link, EventAt(a, p)[0]) <==> Forgets(s, a, p)
  {
    var s := After(BOOT, acts);
    assert Inv(BOOT) && OwedInv(BOOT);
    OwedAfter(BOOT, acts);
    ForgetsIff(s, a, p);
  }

  lemma ForgetsIff(s: St, a: Act, p: nat)
    requires Inv(s) && OwedInv(s) && Enabled(s, a) && p in s.pdev && EventAt(a, p) != []
    ensures Loses(s.pdev[p].link, EventAt(a, p)[0]) <==> Forgets(s, a, p)
  {
    hide Inv, Sorted, Clash, Covered;
    StopOwesNothing(s, a, p);
    assert OwedOk(s, p);
  }

  // How often PDEV p was made to forget one since it was created.
  ghost function Forgotten(s: St, acts: seq<Act>, p: nat, n: nat): (m: nat)
    requires Possible(s, acts)
    decreases |acts|
  {
    if acts == [] then n
    else if acts[0].PdevCreate? && acts[0].p == p then Forgotten(Step(s, acts[0]), acts[1..], p, 0)
    else Forgotten(Step(s, acts[0]), acts[1..], p, n + One(Forgets(s, acts[0], p)))
  }

  lemma LostStep(s: St, a: Act, p: nat, es: seq<Event>)
    requires Inv(s) && OwedInv(s) && Enabled(s, a) && p in s.pdev && p in Step(s, a).pdev && Follows(s.pdev[p].link, es)
    ensures Step(s, a).pdev[p].link.kind == s.pdev[p].link.kind
    ensures CountLost(Fresh(s.pdev[p].link.kind), es + EventAt(a, p))
         == CountLost(Fresh(s.pdev[p].link.kind), es) + One(Forgets(s, a, p))
  {
    hide Inv, OwedInv, Enabled, Step, Accept, Handle, Loses, CountLost, Accepts, Handled;
    CommandIsEvent(s, a, p);
    if EventAt(a, p) == [] {
      assert es + [] == es;
    } else {
      var e := EventAt(a, p)[0];
      assert EventAt(a, p) == [e];
      SameKind(s.pdev[p].link, e);
      OneMore(Fresh(s.pdev[p].link.kind), es, e);
      ForgetsIff(s, a, p);
    }
  }

  lemma {:induction false} LostIsForgotten(s: St, acts: seq<Act>, p: nat, es: seq<Event>, n: nat)
    requires Inv(s) && OwedInv(s) && Possible(s, acts) && p in After(s, acts).pdev
    requires p in s.pdev ==> Follows(s.pdev[p].link, es) && CountLost(Fresh(s.pdev[p].link.kind), es) == n
    ensures CountLost(Fresh(After(s, acts).pdev[p].link.kind), Story(acts, p, es)) == Forgotten(s, acts, p, n)
    decreases |acts|
  {
    hide Inv, OwedInv, Enabled, Step, Follows, EventAt, Forgets, CountLost;
    if acts != [] {
      var a, t := acts[0], Step(s, acts[0]);
      StepKeepsInv(s, a);
      OwedStep(s, a);
      if p !in s.pdev {
        Appears(s, a, p);
        if p in t.pdev {
          Born(a.kind);
          LostIsForgotten(t, acts[1..], p, [], 0);
        } else {
          LostIsForgotten(t, acts[1..], p, es + EventAt(a, p), n + One(Forgets(s, a, p)));
        }
      } else {
        NotAgain(s, a, p);
        if p in t.pdev {
          FollowsStep(s, a, p, es);
          LostStep(s, a, p, es);
        }
        LostIsForgotten(t, acts[1..], p, es + EventAt(a, p), n + One(Forgets(s, a, p)));
      }
    }
  }

  // In every run, of the stream operations begun on a PDEV since it was created, each was ended by STREAM_COMPLETE, was
  // forgotten when another stream was disconnected from the root port, or is the one it owes.
  lemma CompletedOnce(acts: seq<Act>, p: nat)
    requires Possible(BOOT, acts) && p in After(BOOT, acts).pdev
    ensures var es := Story(acts, p, []);
            CountBegun(es) == CountEnded(es) + Forgotten(BOOT, acts, p, 0) + One(Owes(After(BOOT, acts).pdev[p].link))
  {
    hide Enabled, Step, Possible, After, Story, Forgotten, Accepts, Handled, Owes;
    assert Inv(BOOT) && OwedInv(BOOT);
    FollowsStory(BOOT, acts, p, []);
    LostIsForgotten(BOOT, acts, p, [], 0);
    StreamOpsConserved(After(BOOT, acts).pdev[p].link.kind, Story(acts, p, []));
  }

  // ---------------------------------------------------------------- a run in which one is forgotten

  lemma {:induction false} Joined(s: St, a: seq<Act>, b: seq<Act>)
    requires Possible(s, a) && Possible(After(s, a), b)
    ensures Possible(s, a + b) && After(s, a + b) == After(After(s, a), b)
    decreases |a|
  {
    hide Enabled, Step;
    if a == [] {
      assert a + b == b;
    } else {
      assert (a + b)[0] == a[0] && (a + b)[1..] == a[1..] + b;
      Joined(Step(s, a[0]), a[1..], b);
    }
  }

  lemma Then(s: St, run: seq<Act>, a: Act)
    requires Possible(s, run) && Enabled(After(s, run), a)
    ensures Possible(s, run + [a]) && After(s, run + [a]) == Step(After(s, run), a)
  {
    hide Enabled, Step;
    Joined(s, run, [a]);
  }

  // A PDEV that was set up and does nothing.
  function Up(kind: Kind): (x: Pdev) {
    Pdev(Link(kind, Ready, Idle, NoOp), 0, 0, [], false, Nobody, Stream(false, Disconnected, 0, []))
  }

  // Every device can be set up: a root port by one exchange, others by an exchange, a key and another exchange.
  lemma BringUp(s: St, p: nat, kind: Kind) returns (run: seq<Act>)
    requires p !in s.pdev && p !in s.vdev
    ensures Possible(s, run) && After(s, run) == SetPdev(s, p, Up(kind)) && run != [] && run[0] == PdevCreate(p, kind, 0)
  {
    hide Enabled, Step, SetPdev, Possible, After;
    var talk := PdevTalk(p, Success, false);
    Idles(s);
    Creates(s, p, kind);
    Then(s, [], PdevCreate(p, kind, 0));
    run := [] + [PdevCreate(p, kind, 0)];
    Talks(s, p, Up(kind), Fresh(kind));
    Then(s, run, talk);
    run := run + [talk];
    if kind != RootPort {
      KeyIsSet(s, p, Up(kind));
      Then(s, run, SetKey(p));
      run := run + [SetKey(p)];
      Talks(s, p, Up(kind), Link(kind, HasKey, Pending, NoOp));
      Then(s, run, talk);
      run := run + [talk];
    }
  }

  lemma Idles(s: St)
    ensures Possible(s, []) && After(s, []) == s
  {
  }

  lemma Creates(s: St, p: nat, kind: Kind)
    requires p !in s.pdev && p !in s.vdev
    ensures Enabled(s, PdevCreate(p, kind, 0))
    ensures Step(s, PdevCreate(p, kind, 0)) == SetPdev(s, p, Up(kind).(link := Fresh(kind)))
  {
    assert seq(0, i => FREE) == [];
  }

  // One successful exchange.
  lemma Talks(s: St, p: nat, x: Pdev, l: Link)
    requires Busy(l.comm) && !x.yielded && x.owner == Nobody
    ensures var t := SetPdev(s, p, x.(link := l));
            && Enabled(t, PdevTalk(p, Success, false))
            && Step(t, PdevTalk(p, Success, false)) == SetPdev(s, p, x.(link := Completed(l, Success, true)))
  {
    hide Completed;
    assert s.pdev[p := x.(link := l)][p := x.(link := Completed(l, Success, true))]
        == s.pdev[p := x.(link := Completed(l, Success, true))];
  }

  lemma KeyIsSet(s: St, p: nat, x: Pdev)
    ensures var t := SetPdev(s, p, x.(link := Link(x.link.kind, NeedsKey, Idle, NoOp)));
            && Enabled(t, SetKey(p))
            && Step(t, SetKey(p)) == SetPdev(s, p, x.(link := Link(x.link.kind, HasKey, Pending, NoOp)))
  {
    var k := x.link.kind;
    assert s.pdev[p := x.(link := Link(k, NeedsKey, Idle, NoOp))][p := x.(link := Link(k, HasKey, Pending, NoOp))]
        == s.pdev[p := x.(link := Link(k, HasKey, Pending, NoOp))];
  }

  // Two endpoints and a root port.
  function Three(a: Pdev, b: Pdev, c: Pdev): (s: St) {
    St(map[1 := a, 2 := b, 3 := c], map[], map[])
  }

  lemma ThreeUp() returns (run: seq<Act>)
    ensures Possible(BOOT, run) && After(BOOT, run) == Three(Up(OffChip), Up(OffChip), Up(RootPort))
  {
    hide Enabled, Step, Possible, After;
    var a := BringUp(BOOT, 1, OffChip);
    var s := After(BOOT, a);
    var b := BringUp(s, 2, OffChip);
    Joined(BOOT, a, b);
    var t := After(BOOT, a + b);
    var c := BringUp(t, 3, RootPort);
    Joined(BOOT, a + b, c);
    run := a + b + c;
    var e, r := Up(OffChip), Up(RootPort);
    assert map[][1 := e][2 := e][3 := r] == map[1 := e, 2 := e, 3 := r];
  }

  predicate Quiet(x: Pdev) {
    !x.yielded && x.owner == Nobody
  }

  // The PDEV after an exchange that ended well.
  function Settles(x: Pdev): (y: Pdev) {
    x.(link := Completed(x.link, Success, true))
  }

  lemma TalksHere(s: St, p: nat)
    requires p in s.pdev && Busy(s.pdev[p].link.comm) && Quiet(s.pdev[p])
    ensures Enabled(s, PdevTalk(p, Success, false))
    ensures Step(s, PdevTalk(p, Success, false)) == SetPdev(s, p, Settles(s.pdev[p]))
  {
    Talks(s, p, s.pdev[p], s.pdev[p].link);
    assert s.pdev[p := s.pdev[p]] == s.pdev;
  }

  // A stream operation that both ends carry out.
  lemma CarriedOut(s: St, a: Act, t: St) returns (run: seq<Act>)
    requires IsStreamAct(a) && !a.StreamEnd? && Enabled(s, a) && Step(s, a) == t
    requires a.p in t.pdev && a.q in t.pdev && a.p != a.q
    requires Busy(t.pdev[a.p].link.comm) && Busy(t.pdev[a.q].link.comm) && Quiet(t.pdev[a.p]) && Quiet(t.pdev[a.q])
    ensures Possible(s, run)
    ensures After(s, run) == SetPdev(SetPdev(t, a.p, Settles(t.pdev[a.p])), a.q, Settles(t.pdev[a.q]))
  {
    hide Enabled, Step, Possible, After, Settles;
    Idles(s);
    Then(s, [], a);
    run := [] + [a];
    TalksHere(t, a.p);
    Then(s, run, PdevTalk(a.p, Success, false));
    run := run + [PdevTalk(a.p, Success, false)];
    TalksHere(After(s, run), a.q);
    Then(s, run, PdevTalk(a.q, Success, false));
    run := run + [PdevTalk(a.q, Success, false)];
  }

  // A PDEV of the example: whether it owes a completion, how many streams it has, and the stream it heads.
  function Has(kind: Kind, op: Op, streams: nat, stream: Stream): (x: Pdev) {
    Up(kind).(link := Link(kind, Ready, if IsStreamOp(op) then Pending else Idle, op),
              streams := streams, stream := stream)
  }

  const NONE := Stream(false, Disconnected, 0, [])

  function To3(state: StreamState): (x: Stream) {
    Stream(true, state, 3, [])
  }

  lemma ConnectFirst(b: Pdev)
    ensures var s := Three(Up(OffChip), b, Up(RootPort));
            && Enabled(s, StreamConnect(1, 3, []))
            && Step(s, StreamConnect(1, 3, []))
               == Three(Has(OffChip, Connect, 1, To3(Connecting)), b, Has(RootPort, Connect, 1, NONE))
  {
  }

  lemma FirstConnected(b: Pdev)
    ensures var s := Three(Has(OffChip, StreamComplete, 1, To3(Connecting)), b, Has(RootPort, StreamComplete, 1, NONE));
            && Enabled(s, StreamEnd(1, 3))
            && Step(s, StreamEnd(1, 3)) == Three(Has(OffChip, NoOp, 1, To3(Connected)), b, Has(RootPort, NoOp, 1, NONE))
  {
  }

  lemma ConnectSecond(a: Pdev)
    ensures var s := Three(a, Up(OffChip), Has(RootPort, NoOp, 1, NONE));
            && Enabled(s, StreamConnect(2, 3, []))
            && Step(s, StreamConnect(2, 3, []))
               == Three(a, Has(OffChip, Connect, 1, To3(Connecting)), Has(RootPort, Connect, 2, NONE))
  {
  }

  lemma DisconnectFirst(b: Pdev)
    ensures var s := Three(Has(OffChip, NoOp, 1, To3(Connected)), b, Has(RootPort, StreamComplete, 2, NONE));
            && Enabled(s, StreamDisconnect(1, 3))
            && Step(s, StreamDisconnect(1, 3))
               == Three(Has(OffChip, Disconnect, 1, To3(Disconnecting)), b, Has(RootPort, Disconnect, 2, NONE))
  {
  }

  lemma FirstDisconnected(b: Pdev)
    ensures var a, c := Has(OffChip, StreamComplete, 1, To3(Disconnecting)), Has(RootPort, StreamComplete, 2, NONE);
            var s := Three(a, b, c);
            && Enabled(s, StreamEnd(1, 3))
            && Step(s, StreamEnd(1, 3)).pdev.Keys == {1, 2, 3}
            && Step(s, StreamEnd(1, 3)).pdev[2] == b && Step(s, StreamEnd(1, 3)).pdev[3] == Has(RootPort, NoOp, 1, NONE)
  {
  }

  // Two endpoints share a root port.  The second connects and both ends finish; before STREAM_COMPLETE the first
  // disconnects and is completed.  The root port has then forgotten the connection of the second: its STREAM_COMPLETE
  // is refused, and so are its STREAM_DISCONNECT and its PDEV_STOP.
  lemma ForgottenExample() returns (run: seq<Act>)
    ensures Possible(BOOT, run) && {2, 3} <= After(BOOT, run).pdev.Keys
    ensures var s := After(BOOT, run);
            && s.pdev[2].link.op == StreamComplete && s.pdev[2].stream == To3(Connecting)
            && s.pdev[3].link == Link(RootPort, Ready, Idle, NoOp)
            && !Enabled(s, StreamEnd(2, 3)) && !Enabled(s, StreamDisconnect(2, 3)) && !Enabled(s, PdevStop(2))
  {
    var last;
    run, last := ForgottenRun();
    assert last.pdev[2] == Has(OffChip, StreamComplete, 1, To3(Connecting));
    assert last.pdev[3] == Has(RootPort, NoOp, 1, NONE);
  }

  lemma SettlesHas()
    ensures forall kind, op, n, stream :: IsStreamOp(op) ==>
              Settles(Has(kind, op, n, stream)) == Has(kind, StreamComplete, n, stream)
    ensures forall kind, op, n, stream :: IsStreamOp(op) ==>
              Busy(Has(kind, op, n, stream).link.comm) && Quiet(Has(kind, op, n, stream))
  {
  }

  lemma SetThree(a: Pdev, b: Pdev, c: Pdev)
    ensures var t := Three(a, b, c);
            && t.pdev.Keys == {1, 2, 3} && t.pdev[1] == a && t.pdev[2] == b && t.pdev[3] == c
            && SetPdev(SetPdev(t, 1, Settles(a)), 3, Settles(c)) == Three(Settles(a), b, Settles(c))
            && SetPdev(SetPdev(t, 2, Settles(b)), 3, Settles(c)) == Three(a, Settles(b), Settles(c))
  {
    hide Settles;
    var m := map[1 := a, 2 := b, 3 := c];
    assert m[1 := Settles(a)][3 := Settles(c)] == map[1 := Settles(a), 2 := b, 3 := Settles(c)];
    assert m[2 := Settles(b)][3 := Settles(c)] == map[1 := a, 2 := Settles(b), 3 := Settles(c)];
  }

  lemma ForgottenRun() returns (run: seq<Act>, last: St)
    ensures Possible(BOOT, run) && After(BOOT, run) == last && last.pdev.Keys == {1, 2, 3}
    ensures last.pdev[2] == Has(OffChip, StreamComplete, 1, To3(Connecting))
    ensures last.pdev[3] == Has(RootPort, NoOp, 1, NONE)
  {
    hide Enabled, Step, Possible, After, Three, Has, SetPdev, Settles;
    SettlesHas();
    run := ThreeUp();
    ConnectFirst(Up(OffChip));
    SetThree(Has(OffChip, Connect, 1, To3(Connecting)), Up(OffChip), Has(RootPort, Connect, 1, NONE));
    run := Extended(run, Three(Up(OffChip), Up(OffChip), Up(RootPort)), StreamConnect(1, 3, []));
    FirstConnected(Up(OffChip));
    Then(BOOT, run, StreamEnd(1, 3));
    run := run + [StreamEnd(1, 3)];
    var a := Has(OffChip, NoOp, 1, To3(Connected));
    ConnectSecond(a);
    SetThree(a, Has(OffChip, Connect, 1, To3(Connecting)), Has(RootPort, Connect, 2, NONE));
    run := Extended(run, Three(a, Up(OffChip), Has(RootPort, NoOp, 1, NONE)), StreamConnect(2, 3, []));
    var b := Has(OffChip, StreamComplete, 1, To3(Connecting));
    DisconnectFirst(b);
    SetThree(Has(OffChip, Disconnect, 1, To3(Disconnecting)), b, Has(RootPort, Disconnect, 2, NONE));
    run := Extended(run, Three(a, b, Has(RootPort, StreamComplete, 2, NONE)), StreamDisconnect(1, 3));
    FirstDisconnected(b);
    Then(BOOT, run, StreamEnd(1, 3));
    run := run + [StreamEnd(1, 3)];
    last := After(BOOT, run);
  }

  lemma Extended(run: seq<Act>, s: St, a: Act) returns (longer: seq<Act>)
    requires Possible(BOOT, run) && After(BOOT, run) == s
    requires IsStreamAct(a) && !a.StreamEnd? && Enabled(s, a) && a.p != a.q
    requires a.p in Step(s, a).pdev && a.q in Step(s, a).pdev
    requires var t := Step(s, a);
             && Busy(t.pdev[a.p].link.comm) && Busy(t.pdev[a.q].link.comm) && Quiet(t.pdev[a.p]) && Quiet(t.pdev[a.q])
    ensures Possible(BOOT, longer)
    ensures var t := Step(s, a);
            After(BOOT, longer) == SetPdev(SetPdev(t, a.p, Settles(t.pdev[a.p])), a.q, Settles(t.pdev[a.q]))
  {
    hide Enabled, Step, Possible, After;
    var more := CarriedOut(s, a, Step(s, a));
    Joined(BOOT, run, more);
    longer := run + more;
  }
}
