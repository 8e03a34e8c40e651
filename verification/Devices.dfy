/**
  * PDEVs, their streams and the VDEVs on them, as a machine whose steps are the RMI commands.
  */
module Devices {
  import opened VdevRanges
  import opened VdevSlots
  import opened PdevComm

  const SEQ_MAX: nat := 0xFFFF_FFFF_FFFF_FFFF

  // ---------------------------------------------------------------- state

  // Whose operation the shared device assignment app is in the middle of.
  datatype Owner = Nobody | ThePdev | TheVdev(at: nat)

  datatype StreamState = Disconnected | Connecting | Connected | Refreshing | Purging | Disconnecting

  // The stream a PDEV heads, to the root port pd2.
  datatype Stream = Stream(taken: bool, state: StreamState, pd2: nat, ranges: seq<Range>)

  // `streams` and `num` are the counters of associated streams and of VDEVs; `yielded` is the exit flag of the app.
  datatype Pdev = Pdev(link: Link, streams: nat, num: nat, slots: seq<Slot>, yielded: bool, owner: Owner, stream: Stream)

  datatype VdevState = VdevNew | Unlocked | Locked | Started | VdevError

  datatype VdevOp = NoVdevOp | Init | Lock | Start | GetMeas | GetReport | Unlock

  // The sequence numbers of the last lock, and of the measurements and reports since.
  datatype Freshness = Freshness(lock: nat, meas: nat, report: nat)

  datatype Vdev = Vdev(realm: nat, id: nat, pdev: nat, slot: nat, state: VdevState, op: VdevOp, comm: Comm, seqs: Freshness)

  // PDEVs and VDEVs by granule, and the last lock sequence number of each Realm.
  datatype St = St(pdev: map<nat, Pdev>, vdev: map<nat, Vdev>, last: map<nat, nat>)

  // ---------------------------------------------------------------- steps

  datatype Act =
    | RealmCreate(realm: nat)
    | PdevCreate(p: nat, kind: Kind, max: nat)
    | SetKey(p: nat)
    | PdevTalk(p: nat, out: Outcome, left: bool)
    | PdevAbort(p: nat)
    | PdevStop(p: nat)
    | PdevDestroy(p: nat)
    | StreamConnect(p: nat, q: nat, ranges: seq<Range>)
    | StreamDisconnect(p: nat, q: nat)
    | StreamRefresh(p: nat, q: nat)
    | StreamEnd(p: nat, q: nat)
    | VdevCreate(v: nat, p: nat, realm: nat, id: nat, ranges: seq<Range>, slot: nat)
    | VdevBegin(v: nat, op: VdevOp)
    | VdevTalk(v: nat, out: Outcome, left: bool)
    | VdevAbort(v: nat)
    | VdevDestroy(v: nat)

  // The app is free, or in the middle of an operation of the same owner.
  predicate MayRun(x: Pdev, who: Owner) {
    x.yielded ==> x.owner == who
  }

  // What an exchange can come to: an app that blocks has left an operation open, one that succeeds has not.
  predicate Legal(kind: Kind, out: Outcome, left: bool) {
    (out == Success ==> !left) && (kind == RootPort ==> !left) && (out == Blocked && kind != RootPort ==> left)
  }

  // The states in which a VDEV operation may be begun.
  predicate MayBegin(state: VdevState, op: VdevOp) {
    match op
    case Lock => state == Unlocked
    case Start => state == Locked
    case GetMeas => true
    case GetReport => state == Locked || state == Started
    case Unlock => state == Locked || state == Started || state == VdevError
    case Init => false
    case NoVdevOp => false
  }

  predicate CanStream(s: St, p: nat, q: nat) {
    p in s.pdev && q in s.pdev && p != q && s.pdev[p].stream.taken && s.pdev[p].stream.pd2 == q
  }

  predicate Free(l: Link) {
    l.state == Ready && l.op == NoOp && l.comm == Idle
  }

  predicate ReadyOrError(l: Link) {
    l.state == Ready || l.state == Error
  }

  predicate Settled(l: Link) {
    (l.state == Error || (l.state == Ready && l.comm == Idle)) && (l.op == StreamComplete || l.op == StreamAborted)
  }

  predicate Exhausted(s: St, v: Vdev)
    requires v.realm in s.last
  {
    || (v.op == Lock && s.last[v.realm] == SEQ_MAX)
    || (v.op == GetMeas && v.seqs.meas == SEQ_MAX)
    || (v.op == GetReport && v.seqs.report == SEQ_MAX)
  }

  ghost predicate Enabled(s: St, a: Act) {
    match a
    case RealmCreate(r) => r !in s.last
    case PdevCreate(p, kind, max) => p !in s.pdev && p !in s.vdev && (kind == RootPort ==> max == 0)
    case SetKey(p) => p in s.pdev && s.pdev[p].link.state == NeedsKey
    case PdevTalk(p, out, left) =>
      p in s.pdev && Busy(s.pdev[p].link.comm) && MayRun(s.pdev[p], ThePdev) && Legal(s.pdev[p].link.kind, out, left)
    case PdevAbort(p) => p in s.pdev && s.pdev[p].link.comm != Idle
    case PdevStop(p) =>
      && p in s.pdev && (s.pdev[p].link.state == NeedsKey || ReadyOrError(s.pdev[p].link)) && s.pdev[p].link.comm == Idle
      && s.pdev[p].streams == 0 && s.pdev[p].num == 0
    case PdevDestroy(p) => p in s.pdev && s.pdev[p].link.state == Stopped
    case StreamConnect(p, q, ranges) =>
      && p in s.pdev && q in s.pdev && s.pdev[p].link.kind == OffChip && s.pdev[q].link.kind == RootPort
      && Free(s.pdev[p].link) && Free(s.pdev[q].link) && !s.pdev[p].stream.taken
    case StreamDisconnect(p, q) =>
      && CanStream(s, p, q) && s.pdev[p].stream.state == Connected
      && ReadyOrError(s.pdev[p].link) && s.pdev[p].link.comm == Idle
      && ReadyOrError(s.pdev[q].link) && s.pdev[q].link.comm == Idle
    case StreamRefresh(p, q) =>
      CanStream(s, p, q) && s.pdev[p].stream.state == Connected && Free(s.pdev[p].link) && Free(s.pdev[q].link)
    case StreamEnd(p, q) =>
      && CanStream(s, p, q) && Settled(s.pdev[p].link) && Settled(s.pdev[q].link)
      && s.pdev[p].stream.state != Connected && s.pdev[p].stream.state != Disconnected
    case VdevCreate(v, p, r, id, ranges, slot) =>
      && v !in s.pdev && v !in s.vdev && p in s.pdev && r in s.last
      && (forall w :: w in s.vdev ==> s.vdev[w].realm != r || s.vdev[w].id != id)
      && Sorted(ranges) && s.pdev[p].link.kind != RootPort && s.pdev[p].link.state == Ready
      && s.pdev[p].num < |s.pdev[p].slots| && !Clash(s.pdev[p].slots, ranges)
      && slot < |s.pdev[p].slots| && !s.pdev[p].slots[slot].active
      && s.pdev[p].stream.taken && s.pdev[p].stream.state == Connected
      && (forall i :: 0 <= i < |ranges| ==> Covered(ranges[i], s.pdev[p].stream.ranges))
    case VdevBegin(v, op) => v in s.vdev && s.vdev[v].comm == Idle && MayBegin(s.vdev[v].state, op)
    case VdevTalk(v, out, left) =>
      && v in s.vdev && Busy(s.vdev[v].comm) && s.vdev[v].pdev in s.pdev && s.vdev[v].realm in s.last
      && !Exhausted(s, s.vdev[v]) && MayRun(s.pdev[s.vdev[v].pdev], TheVdev(v))
      && Legal(s.pdev[s.vdev[v].pdev].link.kind, out, left)
    case VdevAbort(v) => v in s.vdev && s.vdev[v].comm != Idle && s.vdev[v].pdev in s.pdev
    case VdevDestroy(v) =>
      && v in s.vdev && s.vdev[v].state == Unlocked && (s.vdev[v].comm == Idle || s.vdev[v].comm == Pending)
      && s.vdev[v].pdev in s.pdev && s.vdev[v].slot < |s.pdev[s.vdev[v].pdev].slots| && s.pdev[s.vdev[v].pdev].num > 0
      && !(s.pdev[s.vdev[v].pdev].yielded && s.pdev[s.vdev[v].pdev].owner == TheVdev(v))
  }

  // ---------------------------------------------------------------- effects

  function SetPdev(s: St, p: nat, x: Pdev): (r: St) {
    s.(pdev := s.pdev[p := x])
  }

  function SetVdev(s: St, v: nat, x: Vdev): (r: St) {
    s.(vdev := s.vdev[v := x])
  }

  // The app after an exchange for an owner.
  function Ran(x: Pdev, who: Owner, left: bool): (r: Pdev) {
    x.(yielded := left, owner := if left then who else Nobody)
  }

  // The app after it was told to drop the operation of an owner, if it is in the middle of one.
  function Unwound(x: Pdev, who: Owner): (r: Pdev) {
    if x.link.kind == RootPort || !x.yielded then x.(owner := Nobody)
    else if x.owner != who then x
    else x.(yielded := false, owner := Nobody)
  }

  // A VDEV after its operation completed, given the last lock sequence number of its Realm.
  function Finished(v: Vdev, last: nat): (r: Vdev) {
    var w := v.(comm := Idle, op := NoVdevOp);
    match v.op
    case NoVdevOp => w
    case Init => w.(state := Unlocked)
    case Unlock => w.(state := Unlocked)
    case Lock => w.(state := Locked, seqs := Freshness(last + 1, 0, 0))
    case Start => w.(state := Started)
    case GetMeas => w.(seqs := v.seqs.(meas := v.seqs.meas + 1))
    case GetReport => w.(seqs := v.seqs.(report := v.seqs.report + 1))
  }

  function Talked(v: Vdev, last: nat, out: Outcome, left: bool): (r: Vdev) {
    if out == Blocked || (out == Failure && left) then v.(comm := Active)
    else if out == Failure then v.(state := VdevError, comm := Idle)
    else Finished(v, last)
  }

  function PdevStep(s: St, a: Act): (r: St)
    requires Enabled(s, a) && IsPdevAct(a)
  {
    match a
    case PdevCreate(p, kind, max) =>
      SetPdev(s, p, Pdev(Fresh(kind), 0, 0, seq(max, i => FREE), false, Nobody, Stream(false, Disconnected, 0, [])))
    case SetKey(p) => SetPdev(s, p, s.pdev[p].(link := KeyBegun(s.pdev[p].link)))
    case PdevTalk(p, out, left) =>
      SetPdev(s, p, Ran(s.pdev[p], ThePdev, left).(link := Completed(s.pdev[p].link, out, !left)))
    case PdevAbort(p) => SetPdev(s, p, Unwound(s.pdev[p], ThePdev).(link := Aborted(s.pdev[p].link)))
    case PdevStop(p) => SetPdev(s, p, s.pdev[p].(link := Begun(s.pdev[p].link, Stop)))
    case PdevDestroy(p) => s.(pdev := s.pdev - {p})
  }

  // Both ends of a stream begin an operation and the stream changes.
  function BothBegin(s: St, p: nat, q: nat, op: Op, stream: Stream, added: nat): (r: St)
    requires p in s.pdev && q in s.pdev && p != q
  {
    var x, y := s.pdev[p], s.pdev[q];
    SetPdev(SetPdev(s, p, x.(link := Begun(x.link, op), streams := x.streams + added, stream := stream)),
            q, y.(link := Begun(y.link, op), streams := y.streams + added))
  }

  // What completing the pending operation of a stream does to it: whether it is released.
  predicate Releases(s: St, p: nat, q: nat)
    requires CanStream(s, p, q)
  {
    var x, y := s.pdev[p].link, s.pdev[q].link;
    match s.pdev[p].stream.state
    case Connecting => !(x.state == Ready && x.op == StreamComplete && y.state == Ready && y.op == StreamComplete)
    case Disconnecting => x.state == Error || y.state == Error || !(x.op == StreamAborted && y.op == StreamAborted)
    case _ => false
  }

  function Ended(s: St, p: nat, q: nat): (r: St)
    requires CanStream(s, p, q)
  {
    var x, y := s.pdev[p], s.pdev[q];
    var x', y' := x.(link := x.link.(op := NoOp)), y.(link := y.link.(op := NoOp));
    if Releases(s, p, q) then
      SetPdev(SetPdev(s, p, x'.(streams := Less(x.streams), stream := x.stream.(taken := false, state := Disconnected))),
              q, y'.(streams := Less(y.streams)))
    else SetPdev(SetPdev(s, p, x'.(stream := x.stream.(state := Connected))), q, y')
  }

  function StreamStep(s: St, a: Act): (r: St)
    requires Enabled(s, a) && IsStreamAct(a)
  {
    match a
    case StreamConnect(p, q, ranges) => BothBegin(s, p, q, Connect, Stream(true, Connecting, q, ranges), 1)
    case StreamDisconnect(p, q) => BothBegin(s, p, q, Disconnect, s.pdev[p].stream.(state := Disconnecting), 0)
    case StreamRefresh(p, q) => BothBegin(s, p, q, KeyRefresh, s.pdev[p].stream.(state := Refreshing), 0)
    case StreamEnd(p, q) => Ended(s, p, q)
  }

  function Less(n: nat): (r: nat) {
    if n == 0 then 0 else n - 1
  }

  function VdevStep(s: St, a: Act): (r: St)
    requires Enabled(s, a) && IsVdevAct(a)
  {
    match a
    case VdevCreate(v, p, realm, id, ranges, slot) =>
      var x := s.pdev[p];
      SetVdev(SetPdev(s, p, x.(slots := x.slots[slot := Slot(true, ranges)], num := x.num + 1)),
              v, Vdev(realm, id, p, slot, VdevNew, Init, Pending, Freshness(0, 0, 0)))
    case VdevBegin(v, op) => SetVdev(s, v, s.vdev[v].(op := op, comm := Pending))
    case VdevTalk(v, out, left) =>
      var x := s.vdev[v];
      var locked := out == Success && x.op == Lock;
      SetPdev(SetVdev(s, v, Talked(x, s.last[x.realm], out, left)), x.pdev, Ran(s.pdev[x.pdev], TheVdev(v), left))
        .(last := if locked then s.last[x.realm := s.last[x.realm] + 1] else s.last)
    case VdevAbort(v) =>
      var x := s.vdev[v];
      SetPdev(SetVdev(s, v, x.(state := VdevError, comm := Idle)), x.pdev, Unwound(s.pdev[x.pdev], TheVdev(v)))
    case VdevDestroy(v) =>
      var x := s.vdev[v];
      var y := s.pdev[x.pdev];
      SetPdev(s, x.pdev, y.(slots := y.slots[x.slot := FREE], num := y.num - 1)).(vdev := s.vdev - {v})
  }

  predicate IsPdevAct(a: Act) {
    a.PdevCreate? || a.SetKey? || a.PdevTalk? || a.PdevAbort? || a.PdevStop? || a.PdevDestroy?
  }

  predicate IsStreamAct(a: Act) {
    a.StreamConnect? || a.StreamDisconnect? || a.StreamRefresh? || a.StreamEnd?
  }

  predicate IsVdevAct(a: Act) {
    a.VdevCreate? || a.VdevBegin? || a.VdevTalk? || a.VdevAbort? || a.VdevDestroy?
  }

  function Step(s: St, a: Act): (r: St)
    requires Enabled(s, a)
  {
    if IsPdevAct(a) then PdevStep(s, a)
    else if IsStreamAct(a) then StreamStep(s, a)
    else if IsVdevAct(a) then VdevStep(s, a)
    else s.(last := s.last[a.realm := 0])
  }
}
