/**
  * The states a VDEV goes through.
  */
module DeviceVdevs {
  import opened VdevRanges
  import opened VdevSlots
  import opened PdevComm
  import opened Devices
  import opened DeviceProofs
  import opened DeviceTheorems
  import opened DeviceStreams

  // ---------------------------------------------------------------- one command

  // The state VDEV v, now x, is in after a command: an exchange that succeeds completes the operation it was for, one that
  // fails with the app unwound and an abort leave the VDEV in error, and nothing else moves it.
  function NextState(x: Vdev, a: Act, v: nat): (r: VdevState) {
    match a
    case VdevTalk(w, out, left) =>
      if w != v || out == Blocked || (out == Failure && left) then x.state
      else if out == Failure then VdevError
      else (match x.op
            case Init => Unlocked
            case Unlock => Unlocked
            case Lock => Locked
            case Start => Started
            case _ => x.state)
    case VdevAbort(w) => if w == v then VdevError else x.state
    case _ => x.state
  }

  // The operation is over, and the channel idle, exactly when an exchange has ended or was aborted; the channel is
  // pending after a command began an operation and active while the exchange goes on.
  function NextComm(x: Vdev, a: Act, v: nat): (c: Comm) {
    match a
    case VdevBegin(w, _) => if w == v then Pending else x.comm
    case VdevTalk(w, out, left) =>
      if w != v then x.comm else if out == Blocked || (out == Failure && left) then Active else Idle
    case VdevAbort(w) => if w == v then Idle else x.comm
    case _ => x.comm
  }

  lemma VdevActMoves(s: St, a: Act, v: nat)
    requires Enabled(s, a) && IsVdevAct(a) && v in s.vdev && v in VdevStep(s, a).vdev
    ensures var x, y := s.vdev[v], VdevStep(s, a).vdev[v];
            && y.state == NextState(x, a, v) && y.comm == NextComm(x, a, v)
            && (a.VdevBegin? && a.v == v ==> y.op == a.op)
            && (a.VdevTalk? && a.v == v && a.out == Success ==> y.op == NoVdevOp)
            && y.realm == x.realm && y.id == x.id && y.pdev == x.pdev && y.slot == x.slot
  {
    hide Sorted, Clash, Covered, Exhausted, Legal, MayBegin;
  }

  lemma OthersMoveNone(s: St, a: Act)
    requires Enabled(s, a) && !IsVdevAct(a)
    ensures Step(s, a).vdev == s.vdev
  {
    hide Completed, Aborted, Releases;
  }

  // In every step, a VDEV moves as its state machine says.
  lemma StateMoves(s: St, a: Act, v: nat)
    requires Enabled(s, a) && v in s.vdev && v in Step(s, a).vdev
    ensures Step(s, a).vdev[v].state == NextState(s.vdev[v], a, v) && Step(s, a).vdev[v].comm == NextComm(s.vdev[v], a, v)
  {
    hide Enabled, VdevStep;
    if IsVdevAct(a) {
      VdevActMoves(s, a, v);
    } else {
      OthersMoveNone(s, a);
    }
  }

  // ---------------------------------------------------------------- quoted numbers

  // The command destroys VDEV v, takes it out of LOCKED and STARTED, or gives it new numbers: it is destroyed, an
  // exchange of it fails or is aborted, or an unlock, a lock, a measurement or a report completes.
  predicate Disturbs(s: St, a: Act, v: nat) {
    || a == VdevDestroy(v) || a == VdevAbort(v)
    || (v in s.vdev && a.VdevTalk? && a.v == v &&
        ((a.out == Failure && !a.left) || (a.out == Success && s.vdev[v].op !in {Start, NoVdevOp})))
  }

  ghost predicate NeverDisturbed(s: St, acts: seq<Act>, v: nat)
    requires Possible(s, acts)
    decreases |acts|
  {
    acts == [] || (!Disturbs(s, acts[0], v) && NeverDisturbed(Step(s, acts[0]), acts[1..], v))
  }

  lemma HeldUndisturbed(s: St, a: Act, v: nat, r: nat, id: nat, f: Freshness)
    requires Inv(s) && Enabled(s, a) && Holds(s, v, r, id, f) && Holds(Step(s, a), v, r, id, f)
    ensures !Disturbs(s, a, v)
  {
    hide Inv, Enabled;
    StateMoves(s, a, v);
    FreshnessGrows(s, a, v);
    VdevSound(s, v);
    Destroys(s, a, v);
  }

  lemma Destroys(s: St, a: Act, v: nat)
    requires Enabled(s, a)
    ensures a == VdevDestroy(v) ==> v !in Step(s, a).vdev
  {
  }

  lemma {:induction false} AllAlongUndisturbed(s: St, acts: seq<Act>, v: nat, r: nat, id: nat, f: Freshness)
    requires Inv(s) && Possible(s, acts) && AllAlong(s, acts, v, r, id, f)
    ensures NeverDisturbed(s, acts, v)
    decreases |acts|
  {
    hide Inv, Enabled, Step, Disturbs, Holds;
    if acts != [] {
      HeldUndisturbed(s, acts[0], v, r, id, f);
      StepKeepsInv(s, acts[0]);
      AllAlongUndisturbed(Step(s, acts[0]), acts[1..], v, r, id, f);
    }
  }

  // RTT_DEV_VALIDATE accepts the numbers a Realm quotes only if they are those of the VDEV it read them from, and no command
  // since then has destroyed, unlocked, locked, measured, reported or failed that VDEV.
  lemma QuotedIsCurrent(s: St, acts: seq<Act>, v: nat, w: nat)
    requires Possible(s, acts) && Inv(s) && v in s.vdev && Armed(s.vdev[v])
    requires Holds(After(s, acts), w, s.vdev[v].realm, s.vdev[v].id, s.vdev[v].seqs)
    ensures w == v && AllAlong(s, acts, v, s.vdev[v].realm, s.vdev[v].id, s.vdev[v].seqs) && NeverDisturbed(s, acts, v)
  {
    QuotedIsHeld(s, acts, v, w);
    AllAlongUndisturbed(s, acts, v, s.vdev[v].realm, s.vdev[v].id, s.vdev[v].seqs);
  }

  // ---------------------------------------------------------------- a stream operation ends

  // STREAM_COMPLETE keeps the stream, as CONNECTED, if it was connecting and both ends are READY and have carried out the
  // operation, if it was refreshed or purged, or if it was disconnecting and both ends gave up without an error;
  // otherwise it releases the stream.  Both ends are free for another operation.
  predicate Kept(s: St, p: nat, q: nat)
    requires CanStream(s, p, q)
  {
    var x, y := s.pdev[p].link, s.pdev[q].link;
    var ready := x.state == Ready && y.state == Ready;
    match s.pdev[p].stream.state
    case Connecting => ready && x.op == StreamComplete && y.op == StreamComplete
    case Disconnecting => ready && x.op == StreamAborted && y.op == StreamAborted
    case _ => true
  }

  lemma EndedDecides(s: St, p: nat, q: nat)
    requires CanStream(s, p, q) && s.pdev[p].streams > 0 && s.pdev[q].streams > 0
    requires Settled(s.pdev[p].link) && Settled(s.pdev[q].link)
    ensures var t, n := Ended(s, p, q), if Kept(s, p, q) then 0 else 1;
            && (t.pdev[p].stream.taken <==> Kept(s, p, q)) && (Kept(s, p, q) ==> t.pdev[p].stream.state == Connected)
            && t.pdev[p].stream.pd2 == q && t.pdev[p].stream.ranges == s.pdev[p].stream.ranges
            && t.pdev[p].streams == s.pdev[p].streams - n && t.pdev[q].streams == s.pdev[q].streams - n
            && t.pdev[p].link == s.pdev[p].link.(op := NoOp) && t.pdev[q].link == s.pdev[q].link.(op := NoOp)
  {
  }

  lemma StreamEndDecides(s: St, p: nat, q: nat)
    requires Inv(s) && Enabled(s, StreamEnd(p, q))
    ensures CanStream(s, p, q)
    ensures var t, n := Step(s, StreamEnd(p, q)), if Kept(s, p, q) then 0 else 1;
            && (t.pdev[p].stream.taken <==> Kept(s, p, q)) && (Kept(s, p, q) ==> t.pdev[p].stream.state == Connected)
            && t.pdev[p].stream.pd2 == q && t.pdev[p].stream.ranges == s.pdev[p].stream.ranges
            && t.pdev[p].streams == s.pdev[p].streams - n && t.pdev[q].streams == s.pdev[q].streams - n
            && t.pdev[p].link == s.pdev[p].link.(op := NoOp) && t.pdev[q].link == s.pdev[q].link.(op := NoOp)
  {
    hide Inv, Ended, Kept;
    ReleaseIsSound(s, p, q);
    EndedDecides(s, p, q);
  }

  // ---------------------------------------------------------------- the life of a VDEV

  // VDEV v in a state, between operations.
  function At(s: St, v: nat, state: VdevState, seqs: Freshness, last: nat): (t: St)
    requires v in s.vdev
  {
    s.(vdev := s.vdev[v := s.vdev[v].(state := state, op := NoVdevOp, comm := Idle, seqs := seqs)],
       last := s.last[s.vdev[v].realm := last])
  }

  // What an operation that succeeds makes of a VDEV with these numbers, in a Realm that has given out `last` lock numbers.
  function Done(op: VdevOp, state: VdevState): (r: VdevState) {
    match op
    case Lock => Locked
    case Start => Started
    case Unlock => Unlocked
    case _ => state
  }

  function Counted(op: VdevOp, f: Freshness, last: nat): (r: Freshness) {
    match op
    case Lock => Freshness(last + 1, 0, 0)
    case GetMeas => f.(meas := f.meas + 1)
    case GetReport => f.(report := f.report + 1)
    case _ => f
  }

  // The app of the PDEV of v is free.
  predicate AppFree(s: St, v: nat) {
    && v in s.vdev && s.vdev[v].pdev in s.pdev && s.vdev[v].realm in s.last
    && !s.pdev[s.vdev[v].pdev].yielded && s.pdev[s.vdev[v].pdev].owner == Nobody
  }

  predicate Suits(op: VdevOp, state: VdevState, f: Freshness, last: nat) {
    || (op == Lock && state == Unlocked && last < SEQ_MAX) || (op == Start && state == Locked)
    || (op == GetMeas && f.meas < SEQ_MAX) || (op == GetReport && (state == Locked || state == Started) && f.report < SEQ_MAX)
    || (op == Unlock && (state == Locked || state == Started || state == VdevError))
  }

  function Busied(t: St, v: nat, op: VdevOp): (u: St)
    requires v in t.vdev
  {
    t.(vdev := t.vdev[v := t.vdev[v].(op := op, comm := Pending)])
  }

  lemma Begins(s: St, v: nat, op: VdevOp, state: VdevState, f: Freshness, last: nat)
    requires AppFree(s, v) && Suits(op, state, f, last)
    ensures var t := At(s, v, state, f, last);
            && v in t.vdev && Enabled(t, VdevBegin(v, op)) && Step(t, VdevBegin(v, op)) == Busied(t, v, op)
  {
  }

  lemma Succeeds(s: St, v: nat, op: VdevOp, state: VdevState, f: Freshness, last: nat)
    requires AppFree(s, v) && Suits(op, state, f, last)
    ensures var t := At(s, v, state, f, last);
            && v in t.vdev && Enabled(Busied(t, v, op), VdevTalk(v, Success, false))
            && Step(Busied(t, v, op), VdevTalk(v, Success, false))
               == At(s, v, Done(op, state), Counted(op, f, last), if op == Lock then last + 1 else last)
  {
    var y := s.pdev[s.vdev[v].pdev];
    assert s.pdev[s.vdev[v].pdev := y] == s.pdev;
  }

  // Begins an operation on an idle VDEV and has it succeed in one exchange.
  lemma Operate(s: St, v: nat, op: VdevOp, state: VdevState, f: Freshness, last: nat)
    requires AppFree(s, v) && Suits(op, state, f, last)
    ensures var t, b, c := At(s, v, state, f, last), VdevBegin(v, op), VdevTalk(v, Success, false);
            && Enabled(t, b) && Enabled(Step(t, b), c)
            && Step(Step(t, b), c) == At(s, v, Done(op, state), Counted(op, f, last), if op == Lock then last + 1 else last)
  {
    hide Enabled, Step, At, Suits, AppFree;
    Begins(s, v, op, state, f, last);
    Succeeds(s, v, op, state, f, last);
  }

  lemma Both(s: St, acts: seq<Act>, b: Act, c: Act)
    requires Possible(s, acts) && Enabled(After(s, acts), b) && Enabled(Step(After(s, acts), b), c)
    ensures Possible(s, acts + [b] + [c]) && After(s, acts + [b] + [c]) == Step(Step(After(s, acts), b), c)
  {
    hide Enabled, Step;
    Then(s, acts, b);
    Then(s, acts + [b], c);
  }

  // A VDEV can go through its life again and again: from UNLOCKED it can be locked, reported, started, measured and
  // unlocked.  It ends UNLOCKED, with the next lock number of its Realm, and nothing else has changed.
  lemma VdevTrip(s: St, v: nat, f: Freshness, last: nat) returns (run: seq<Act>)
    requires AppFree(s, v) && last < SEQ_MAX
    ensures Possible(At(s, v, Unlocked, f, last), run)
    ensures After(At(s, v, Unlocked, f, last), run) == At(s, v, Unlocked, Freshness(last + 1, 1, 1), last + 1)
  {
    hide Enabled, Step, Possible, After, At;
    var t, talk := At(s, v, Unlocked, f, last), VdevTalk(v, Success, false);
    Idles(t);
    Operate(s, v, Lock, Unlocked, f, last);
    Both(t, [], VdevBegin(v, Lock), talk);
    run := [] + [VdevBegin(v, Lock)] + [talk];
    Operate(s, v, GetReport, Locked, Freshness(last + 1, 0, 0), last + 1);
    Both(t, run, VdevBegin(v, GetReport), talk);
    run := run + [VdevBegin(v, GetReport)] + [talk];
    Operate(s, v, Start, Locked, Freshness(last + 1, 0, 1), last + 1);
    Both(t, run, VdevBegin(v, Start), talk);
    run := run + [VdevBegin(v, Start)] + [talk];
    Operate(s, v, GetMeas, Started, Freshness(last + 1, 0, 1), last + 1);
    Both(t, run, VdevBegin(v, GetMeas), talk);
    run := run + [VdevBegin(v, GetMeas)] + [talk];
    Operate(s, v, Unlock, Started, Freshness(last + 1, 1, 1), last + 1);
    Both(t, run, VdevBegin(v, Unlock), talk);
    run := run + [VdevBegin(v, Unlock)] + [talk];
  }
}
