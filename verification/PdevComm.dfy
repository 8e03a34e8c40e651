/**
  * The communication and operation state of a PDEV.
  */
module PdevComm {
  datatype Kind = RootPort | OffChip | OnChip

  datatype PdevState = New | NeedsKey | HasKey | Ready | Stopped | Error

  datatype Comm = Idle | Pending | Active | CommError

  datatype Op = NoOp | Connect | Disconnect | KeyRefresh | KeyPurge | Stop | StreamAborted | StreamComplete

  // What an exchange with the device comes to.
  datatype Outcome = Blocked | Success | Failure

  datatype Link = Link(kind: Kind, state: PdevState, comm: Comm, op: Op)

  predicate IsStreamOp(op: Op) {
    op == Connect || op == Disconnect || op == KeyRefresh || op == KeyPurge
  }

  function Fresh(kind: Kind): (l: Link) {
    Link(kind, New, Pending, NoOp)
  }

  function Begun(l: Link, op: Op): (r: Link) {
    l.(op := op, comm := Pending)
  }

  function KeyBegun(l: Link): (r: Link) {
    l.(state := HasKey, comm := Pending)
  }

  function Completed(l: Link, out: Outcome, unwound: bool): (r: Link) {
    if out == Blocked || (l.op == Stop && out == Failure && !unwound) then l.(comm := Active)
    else if l.op == Stop then Link(l.kind, Stopped, if out == Success then Idle else CommError, NoOp)
    else
      var state :=
        if out == Failure then Error
        else if l.state == New then (if l.kind == RootPort then Ready else NeedsKey)
        else if l.state == HasKey then Ready
        else l.state;
      Link(l.kind, state, Idle, if IsStreamOp(l.op) then StreamComplete else NoOp)
  }

  function Aborted(l: Link): (r: Link) {
    Link(l.kind, Error, Idle, if IsStreamOp(l.op) || l.op == StreamComplete then StreamComplete else NoOp)
  }

  // A STOP in progress keeps the channel busy, and only a stopped PDEV has the channel in error.
  predicate LinkOk(l: Link) {
    && (l.op == Stop ==> l.comm == Pending || l.comm == Active)
    && (l.state == Stopped ==> l.op == NoOp && (l.comm == Idle || l.comm == CommError))
    && (l.comm == CommError ==> l.state == Stopped)
  }

  predicate Busy(c: Comm) {
    c == Pending || c == Active
  }

  // ---------------------------------------------------------------- what happens to a PDEV over time

  datatype Event =
    | OpBegun(op: Op)
    | KeySet
    | Exchange(out: Outcome, unwound: bool)
    | Cut
    | StreamEnded

  // When the handler of an event may be called.
  predicate Accept(l: Link, e: Event) {
    match e
    case OpBegun(op) => l.comm == Idle && op != NoOp
    case KeySet => l.state == NeedsKey
    case Exchange(out, unwound) => Busy(l.comm) && (l.op == Stop && out == Success ==> unwound)
    case Cut => l.comm != Idle
    case StreamEnded => l.op == StreamComplete || l.op == StreamAborted
  }

  function Handle(l: Link, e: Event): (r: Link) {
    match e
    case OpBegun(op) => Begun(l, op)
    case KeySet => KeyBegun(l)
    case Exchange(out, unwound) => Completed(l, out, unwound)
    case Cut => Aborted(l)
    case StreamEnded => l.(op := NoOp)
  }

  // The PDEV after a history.
  function Handled(l: Link, es: seq<Event>): (r: Link) {
    if es == [] then l else Handle(Handled(l, es[..|es| - 1]), es[|es| - 1])
  }

  predicate Accepts(l: Link, es: seq<Event>) {
    es == [] || (Accepts(l, es[..|es| - 1]) && Accept(Handled(l, es[..|es| - 1]), es[|es| - 1]))
  }

  // ---------------------------------------------------------------- stream operations are completed once

  // A stream operation was begun and STREAM_COMPLETE has not ended it yet.
  predicate Owes(l: Link) {
    l.op != NoOp && l.op != Stop
  }

  function One(b: bool): (n: nat) {
    if b then 1 else 0
  }

  // The event makes the PDEV forget the stream operation it owes.
  predicate Loses(l: Link, e: Event) {
    match e
    case OpBegun(_) => Owes(l)
    case KeySet => false
    case Exchange(out, _) => out != Blocked && (l.op == StreamComplete || l.op == StreamAborted)
    case Cut => l.op == StreamAborted
    case StreamEnded => false
  }

  function CountBegun(es: seq<Event>): (n: nat) {
    if es == [] then 0
    else CountBegun(es[..|es| - 1]) + One(es[|es| - 1].OpBegun? && es[|es| - 1].op != Stop && es[|es| - 1].op != NoOp)
  }

  function CountEnded(es: seq<Event>): (n: nat) {
    if es == [] then 0 else CountEnded(es[..|es| - 1]) + One(es[|es| - 1].StreamEnded?)
  }

  function CountLost(l: Link, es: seq<Event>): (n: nat) {
    if es == [] then 0 else CountLost(l, es[..|es| - 1]) + One(Loses(Handled(l, es[..|es| - 1]), es[|es| - 1]))
  }

  lemma OneMore(l: Link, es: seq<Event>, e: Event)
    requires Accepts(l, es) && Accept(Handled(l, es), e)
    ensures Accepts(l, es + [e]) && Handled(l, es + [e]) == Handle(Handled(l, es), e)
    ensures CountBegun(es + [e]) == CountBegun(es) + One(e.OpBegun? && e.op != Stop)
    ensures CountEnded(es + [e]) == CountEnded(es) + One(e.StreamEnded?)
    ensures CountLost(l, es + [e]) == CountLost(l, es) + One(Loses(Handled(l, es), e))
  {
    assert (es + [e])[..|es|] == es;
  }

  lemma SameKind(l: Link, e: Event)
    ensures Handle(l, e).kind == l.kind
  {
  }

  lemma Nothing(l: Link)
    ensures Accepts(l, []) && Handled(l, []) == l && CountBegun([]) == 0 && CountEnded([]) == 0 && CountLost(l, []) == 0
  {
  }

  // Conservation: whatever happens to a PDEV, each stream operation begun was ended by STREAM_COMPLETE, was lost, or
  // is the one that is owed.
  lemma {:induction false} StreamOpsConserved(kind: Kind, es: seq<Event>)
    requires Accepts(Fresh(kind), es)
    ensures CountBegun(es) == CountEnded(es) + CountLost(Fresh(kind), es) + One(Owes(Handled(Fresh(kind), es)))
  {
    if es != [] {
      StreamOpsConserved(kind, es[..|es| - 1]);
    }
  }

  lemma {:induction false} LostNone(l: Link, es: seq<Event>)
    ensures CountLost(l, es) == 0 <==> forall i :: 0 <= i < |es| ==> !Loses(Handled(l, es[..i]), es[i])
  {
    if es != [] {
      var m := |es| - 1;
      LostNone(l, es[..m]);
      forall i | 0 <= i < m ensures es[..m][..i] == es[..i] {}
      assert es[m] == es[|es| - 1];
      if CountLost(l, es) == 0 {
        forall i | 0 <= i < |es| ensures !Loses(Handled(l, es[..i]), es[i]) {
          assert i < m ==> !Loses(Handled(l, es[..m][..i]), es[..m][i]);
        }
      } else if CountLost(l, es[..m]) == 0 {
        assert Loses(Handled(l, es[..m]), es[m]);
      } else {
        var i :| 0 <= i < m && Loses(Handled(l, es[..m][..i]), es[..m][i]);
        assert Loses(Handled(l, es[..i]), es[i]);
      }
    }
  }

  // Every stream operation is ended exactly once, or still owed, if and only if no event came that makes a PDEV forget
  // the one it owes.
  lemma ExactlyOnceIff(kind: Kind, es: seq<Event>)
    requires Accepts(Fresh(kind), es)
    ensures CountBegun(es) == CountEnded(es) + One(Owes(Handled(Fresh(kind), es))) <==>
            forall i :: 0 <= i < |es| ==> !Loses(Handled(Fresh(kind), es[..i]), es[i])
  {
    StreamOpsConserved(kind, es);
    LostNone(Fresh(kind), es);
  }

  // A history in which the second operation begins before the first was ended, and only one ending can follow.
  lemma OverwrittenExample(l: Link, talk: Event) returns (es: seq<Event>)
    requires l == Fresh(RootPort) && talk == Exchange(Success, true)
    ensures es == [talk, OpBegun(Connect), talk, OpBegun(Disconnect), talk, StreamEnded]
    ensures Accepts(l, es) && !Accept(Handled(l, es), StreamEnded)
    ensures CountBegun(es) == 2 && CountEnded(es) == 1
  {
    hide Accepts, Handled, CountBegun, CountEnded, CountLost, Loses;
    Nothing(l);
    OneMore(l, [], talk);
    var a := [] + [talk];
    OneMore(l, a, OpBegun(Connect));
    var b := a + [OpBegun(Connect)];
    OneMore(l, b, talk);
    var c := b + [talk];
    OneMore(l, c, OpBegun(Disconnect));
    var d := c + [OpBegun(Disconnect)];
    OneMore(l, d, talk);
    OneMore(l, d + [talk], StreamEnded);
    es := d + [talk] + [StreamEnded];
  }

  // ---------------------------------------------------------------- how a PDEV stops and becomes ready

  // A PDEV stops exactly when an exchange for a STOP ends with the app out of the way.
  lemma StopsUnwound(l: Link, e: Event)
    requires l.state != Stopped && Accept(l, e)
    ensures Handle(l, e).state == Stopped <==> e.Exchange? && l.op == Stop && e.out != Blocked && e.unwound
  {
  }

  ghost predicate StopEnds(l: Link, es: seq<Event>, i: nat) {
    i < |es| && es[i].Exchange? && es[i].out != Blocked && es[i].unwound && Handled(l, es[..i]).op == Stop
  }

  // A STOP in progress was asked for.
  lemma {:induction false} StopWasBegun(kind: Kind, es: seq<Event>)
    requires Accepts(Fresh(kind), es) && Handled(Fresh(kind), es).op == Stop
    ensures OpBegun(Stop) in es
  {
    var m := |es| - 1;
    if es[m] != OpBegun(Stop) {
      StopWasBegun(kind, es[..m]);
    }
  }

  // In every history, a PDEV that is STOPPED was asked to stop before, and an exchange for that ended with the app
  // unwound.
  lemma {:induction false} StoppedWasAsked(kind: Kind, es: seq<Event>)
    requires Accepts(Fresh(kind), es) && Handled(Fresh(kind), es).state == Stopped
    ensures exists i: nat :: StopEnds(Fresh(kind), es, i) && OpBegun(Stop) in es[..i]
  {
    var m := |es| - 1;
    if Handled(Fresh(kind), es[..m]).state == Stopped {
      StoppedWasAsked(kind, es[..m]);
      var i: nat :| StopEnds(Fresh(kind), es[..m], i) && OpBegun(Stop) in es[..m][..i];
      assert es[..m][..i] == es[..i];
      assert StopEnds(Fresh(kind), es, i);
    } else {
      StopsUnwound(Handled(Fresh(kind), es[..m]), es[m]);
      StopWasBegun(kind, es[..m]);
      assert StopEnds(Fresh(kind), es, m);
    }
  }

  // In every history, a PDEV other than a root port is READY only after a key was set.
  lemma {:induction false} ReadyHasKey(kind: Kind, es: seq<Event>)
    requires Accepts(Fresh(kind), es) && kind != RootPort && KeySet !in es
    ensures Handled(Fresh(kind), es).kind == kind
    ensures Handled(Fresh(kind), es).state != Ready && Handled(Fresh(kind), es).state != HasKey
  {
    if es != [] {
      ReadyHasKey(kind, es[..|es| - 1]);
    }
  }

  // ---------------------------------------------------------------- the object

  // The object whose fields the handlers assign, with what has happened to it so far.
  class PdevObject {
    const kind: Kind
    var state: PdevState
    var comm: Comm
    var op: Op
    ghost var log: seq<Event>

    ghost function Value(): (l: Link)
      reads this
    {
      Link(kind, state, comm, op)
    }

    ghost predicate Valid()
      reads this
    {
      Accepts(Fresh(kind), log) && Value() == Handled(Fresh(kind), log)
    }

    constructor (k: Kind)
      ensures Valid() && log == [] && kind == k && LinkOk(Value())
    {
      kind, state, comm, op, log := k, New, Pending, NoOp, [];
    }

    method Begin(o: Op)
      requires Valid() && comm == Idle && o != NoOp
      modifies this
      ensures Valid() && log == old(log) + [OpBegun(o)]
      ensures Value() == old(Value()).(op := o, comm := Pending)
      ensures Owes(Value()) <==> o != Stop
      ensures CountLost(Fresh(kind), log) == old(CountLost(Fresh(kind), log)) + One(old(Owes(Value())))
      ensures old(LinkOk(Value()) && state != Stopped) ==> LinkOk(Value())
    {
      OneMore(Fresh(kind), log, OpBegun(o));
      op := o;
      comm := Pending;
      log := log + [OpBegun(o)];
    }

    method BeginKey()
      requires Valid() && state == NeedsKey
      modifies this
      ensures Valid() && log == old(log) + [KeySet]
      ensures Value() == old(Value()).(state := HasKey, comm := Pending)
      ensures op != Stop ==> Completed(Value(), Success, true).state == Ready
      ensures old(LinkOk(Value())) ==> LinkOk(Value())
    {
      OneMore(Fresh(kind), log, KeySet);
      state := HasKey;
      comm := Pending;
      log := log + [KeySet];
    }

    method CompleteStop()
      modifies this
      ensures Value() == old(Value()).(state := Stopped, op := NoOp) && log == old(log)
    {
      state := Stopped;
      op := NoOp;
    }

    method CompleteOperation(success: bool)
      requires op != Stop
      modifies this
      ensures Value() == Completed(old(Value()), if success then Success else Failure, true) && log == old(log)
    {
      comm := Idle;
      if !success {
        state := Error;
      } else if state == New {
        state := if kind == RootPort then Ready else NeedsKey;
      } else if state == HasKey {
        state := Ready;
      }
      if IsStreamOp(op) {
        op := StreamComplete;
      } else {
        op := NoOp;
      }
    }

    method Finish(out: Outcome, unwound: bool)
      requires Busy(comm)
      modifies this
      ensures Value() == Completed(old(Value()), out, unwound) && log == old(log)
    {
      if out == Blocked {
        comm := Active;
        return;
      }
      if op == Stop {
        if out == Failure && !unwound {
          comm := Active;
          return;
        }
        comm := if out == Success then Idle else CommError;
        CompleteStop();
        return;
      }
      CompleteOperation(out == Success);
    }

    // The channel stays busy exactly while the exchange is blocked or an unwind is owed; the PDEV stops exactly when a
    // STOP ends with the app unwound; a stream operation is still owed, ended or not.
    method Complete(out: Outcome, unwound: bool)
      requires Valid() && Busy(comm)
      requires op == Stop && out == Success ==> unwound
      modifies this
      ensures Valid() && log == old(log) + [Exchange(out, unwound)]
      ensures Busy(comm) <==> out == Blocked || (old(op) == Stop && !unwound)
      ensures old(LinkOk(Value())) ==> (state == Stopped <==> old(op) == Stop && out != Blocked && unwound)
      ensures state == Ready <==>
                || (old(state) == Ready && (out != Failure || (old(op) == Stop && !unwound)) && state != Stopped)
                || (old(state) == HasKey && out == Success && old(op) != Stop)
                || (old(state) == New && out == Success && old(op) != Stop && kind == RootPort)
      ensures old(IsStreamOp(op)) ==> op == if Busy(comm) then old(op) else StreamComplete
      ensures old(LinkOk(Value())) ==> LinkOk(Value())
    {
      OneMore(Fresh(kind), log, Exchange(out, unwound));
      Finish(out, unwound);
      log := log + [Exchange(out, unwound)];
    }

    method Abort()
      requires Valid() && comm != Idle
      modifies this
      ensures Valid() && log == old(log) + [Cut]
      ensures state == Error && comm == Idle && LinkOk(Value())
      ensures Owes(Value()) <==> old(Owes(Value()) && op != StreamAborted)
      ensures Owes(Value()) ==> Accept(Value(), StreamEnded)
    {
      OneMore(Fresh(kind), log, Cut);
      state := Error;
      if IsStreamOp(op) || op == StreamComplete {
        op := StreamComplete;
      } else {
        op := NoOp;
      }
      comm := Idle;
      log := log + [Cut];
    }

    method StreamDone()
      requires Valid() && (op == StreamComplete || op == StreamAborted)
      modifies this
      ensures Valid() && log == old(log) + [StreamEnded]
      ensures Value() == old(Value()).(op := NoOp) && !Owes(Value())
      ensures CountBegun(log) == CountEnded(log) + CountLost(Fresh(kind), log)
      ensures old(LinkOk(Value())) ==> LinkOk(Value())
    {
      OneMore(Fresh(kind), log, StreamEnded);
      op := NoOp;
      log := log + [StreamEnded];
      StreamOpsConserved(kind, log);
    }
  }
}
