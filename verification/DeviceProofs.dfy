/**
  * What every RMI command on devices keeps.
  */
module DeviceProofs {
  import opened Basics
  import opened VdevRanges
  import opened VdevSlots
  import opened PdevComm
  import opened Devices

  // ---------------------------------------------------------------- the invariant

  // The PDEVs whose stream is taken and names p at either end.
  function StreamsOf(s: St, p: nat): (ps: set<nat>) {
    set h | h in s.pdev && s.pdev[h].stream.taken && (h == p || s.pdev[h].stream.pd2 == p)
  }

  function VdevsOf(s: St, p: nat): (vs: set<nat>) {
    set v | v in s.vdev && s.vdev[v].pdev == p
  }

  // A taken stream joins two different PDEVs that exist.
  predicate StreamOk(s: St, p: nat)
    requires p in s.pdev
  {
    var x := s.pdev[p].stream;
    x.taken ==> x.pd2 in s.pdev && x.pd2 != p && x.state != Disconnected
  }

  // The counters count.
  predicate CountOk(s: St, p: nat)
    requires p in s.pdev
  {
    s.pdev[p].streams == |StreamsOf(s, p)| && s.pdev[p].num == |VdevsOf(s, p)|
  }

  ghost predicate SlotsOk(x: Pdev) {
    RangesSorted(x.slots) && Disjoint(x.slots) && x.num == ActiveCount(x.slots)
  }

  // The app is in the middle of an operation exactly when somebody owns it, and the owner exists.
  predicate AppOk(s: St, p: nat, x: Pdev) {
    && (x.yielded <==> x.owner != Nobody)
    && (x.owner.TheVdev? ==> x.owner.at in s.vdev && s.vdev[x.owner.at].pdev == p)
    && (x.link.kind == RootPort || x.link.state == Stopped ==> !x.yielded)
  }

  // A PDEV that stops or has stopped has no streams and no VDEVs.
  predicate StopOk(x: Pdev) {
    x.link.op == Stop || x.link.state == Stopped ==> x.streams == 0 && x.num == 0
  }

  predicate Armed(v: Vdev) {
    v.state == Locked || v.state == Started
  }

  // The operation in progress suits the state of the VDEV.
  predicate Fits(v: Vdev) {
    && v.comm != CommError
    && (v.comm != Idle ==>
          match v.op
          case NoVdevOp => false
          case Init => v.state == VdevNew
          case Lock => v.state == Unlocked
          case Start => v.state == Locked
          case GetMeas => true
          case GetReport => Armed(v)
          case Unlock => Armed(v) || v.state == VdevError)
  }

  // Sequence numbers fit, none is ahead of its Realm, and a locked VDEV has been given one.
  predicate SeqsOk(s: St, v: Vdev) {
    && v.realm in s.last && v.seqs.lock <= s.last[v.realm] && v.seqs.meas <= SEQ_MAX && v.seqs.report <= SEQ_MAX
    && (Armed(v) ==> v.seqs.lock > 0)
  }

  predicate PlaceOk(s: St, v: Vdev) {
    v.pdev in s.pdev && v.slot < |s.pdev[v.pdev].slots| && s.pdev[v.pdev].slots[v.slot].active
  }

  // Two VDEVs have different slots, different identifiers in their Realm, and were locked at different numbers.
  predicate Distinct(v: Vdev, w: Vdev) {
    && (v.pdev == w.pdev ==> v.slot != w.slot)
    && (v.realm == w.realm ==> v.id != w.id && (v.seqs.lock == w.seqs.lock ==> v.seqs.lock == 0))
  }

  ghost predicate PdevInv(s: St) {
    forall p :: p in s.pdev ==>
      LinkOk(s.pdev[p].link) && StopOk(s.pdev[p]) && SlotsOk(s.pdev[p]) && AppOk(s, p, s.pdev[p])
  }

  ghost predicate StreamInv(s: St) {
    forall p :: p in s.pdev ==> StreamOk(s, p) && CountOk(s, p)
  }

  ghost predicate VdevInv(s: St) {
    && (forall v :: v in s.vdev ==> Fits(s.vdev[v]) && SeqsOk(s, s.vdev[v]) && PlaceOk(s, s.vdev[v]))
    && (forall v, w :: v in s.vdev && w in s.vdev && v != w ==> Distinct(s.vdev[v], s.vdev[w]))
    && (forall r :: r in s.last ==> s.last[r] <= SEQ_MAX)
  }

  ghost predicate Inv(s: St) {
    PdevInv(s) && StreamInv(s) && VdevInv(s)
  }

  // ---------------------------------------------------------------- updates

  // A PDEV that keeps its slots, its counters and the ends of its stream.
  predicate SameShape(x: Pdev, y: Pdev) {
    && y.streams == x.streams && y.num == x.num && y.slots == x.slots && y.stream.taken == x.stream.taken
    && y.stream.pd2 == x.stream.pd2 && (y.stream.taken ==> y.stream.state != Disconnected)
  }

  predicate SameEnds(s: St, t: St) {
    t.pdev.Keys == s.pdev.Keys && forall p :: p in s.pdev ==> SameShape(s.pdev[p], t.pdev[p])
  }

  predicate SameHomes(s: St, t: St) {
    t.vdev.Keys == s.vdev.Keys && forall v :: v in s.vdev ==> t.vdev[v].pdev == s.vdev[v].pdev
  }

  lemma StreamFrame(s: St, t: St)
    requires StreamInv(s) && SameEnds(s, t) && SameHomes(s, t)
    ensures StreamInv(t)
  {
    forall p | p in t.pdev
      ensures StreamOk(t, p) && CountOk(t, p)
    {
      assert StreamOk(s, p) && CountOk(s, p);
      assert StreamsOf(t, p) == StreamsOf(s, p) && VdevsOf(t, p) == VdevsOf(s, p);
    }
  }

  lemma VdevFrame(s: St, t: St)
    requires VdevInv(s) && t.vdev == s.vdev && t.last == s.last && SameEnds(s, t)
    ensures VdevInv(t)
  {
  }

  // Only p changes, and it is in order.
  lemma PdevFrame(s: St, t: St, p: nat)
    requires PdevInv(s) && t.pdev.Keys == s.pdev.Keys && SameHomes(s, t)
    requires forall o :: o in s.pdev && o != p ==> t.pdev[o] == s.pdev[o]
    requires p in t.pdev ==> LinkOk(t.pdev[p].link) && StopOk(t.pdev[p]) && SlotsOk(t.pdev[p]) && AppOk(t, p, t.pdev[p])
    ensures PdevInv(t)
  {
    forall o | o in t.pdev && o != p
      ensures AppOk(t, o, t.pdev[o])
    {
      assert AppOk(s, o, s.pdev[o]);
    }
  }

  lemma PdevUpdate(s: St, p: nat, y: Pdev)
    requires Inv(s) && p in s.pdev && SameShape(s.pdev[p], y) && LinkOk(y.link) && StopOk(y) && AppOk(s, p, y)
    ensures Inv(SetPdev(s, p, y))
  {
    hide StreamInv, VdevInv;
    var t := SetPdev(s, p, y);
    SameShapes(s);
    StreamFrame(s, t);
    VdevFrame(s, t);
    PdevFrame(s, t, p);
  }

  lemma SameShapes(s: St)
    requires StreamInv(s)
    ensures forall p :: p in s.pdev ==> SameShape(s.pdev[p], s.pdev[p])
  {
    forall p | p in s.pdev
      ensures SameShape(s.pdev[p], s.pdev[p])
    {
      assert StreamOk(s, p);
    }
  }

  lemma VdevUpdate(s: St, v: nat, x: Vdev)
    requires Inv(s) && v in s.vdev && Fits(x) && SeqsOk(s, x)
    requires x.realm == s.vdev[v].realm && x.id == s.vdev[v].id && x.pdev == s.vdev[v].pdev && x.slot == s.vdev[v].slot
    requires x.seqs.lock == s.vdev[v].seqs.lock
             || (forall w :: w in s.vdev && w != v && s.vdev[w].realm == x.realm ==> s.vdev[w].seqs.lock < x.seqs.lock)
    ensures Inv(SetVdev(s, v, x))
  {
    hide StreamInv, PdevInv, VdevInv;
    var t := SetVdev(s, v, x);
    SameShapes(s);
    StreamFrame(s, t);
    PdevsKept(s, t);
    VdevsKept(s, v, x);
  }

  lemma VdevsKept(s: St, v: nat, x: Vdev)
    requires VdevInv(s) && v in s.vdev && Fits(x) && SeqsOk(s, x)
    requires x.realm == s.vdev[v].realm && x.id == s.vdev[v].id && x.pdev == s.vdev[v].pdev && x.slot == s.vdev[v].slot
    requires x.seqs.lock == s.vdev[v].seqs.lock
             || (forall w :: w in s.vdev && w != v && s.vdev[w].realm == x.realm ==> s.vdev[w].seqs.lock < x.seqs.lock)
    ensures VdevInv(SetVdev(s, v, x))
  {
    var t := SetVdev(s, v, x);
    forall w | w in s.vdev
      ensures Fits(t.vdev[w]) && SeqsOk(t, t.vdev[w]) && PlaceOk(t, t.vdev[w])
      ensures w != v ==> Distinct(x, t.vdev[w]) && Distinct(t.vdev[w], x)
    {
      assert Fits(s.vdev[w]) && SeqsOk(s, s.vdev[w]) && PlaceOk(s, s.vdev[w]);
      assert w != v ==> Distinct(s.vdev[v], s.vdev[w]) && Distinct(s.vdev[w], s.vdev[v]);
    }
  }

  lemma PdevsKept(s: St, t: St)
    requires PdevInv(s) && t.pdev == s.pdev && SameHomes(s, t)
    ensures PdevInv(t)
  {
    forall p | p in t.pdev
      ensures AppOk(t, p, t.pdev[p])
    {
      assert AppOk(s, p, s.pdev[p]);
    }
  }

  lemma LastUpdate(s: St, r: nat, n: nat)
    requires Inv(s) && n <= SEQ_MAX && (r in s.last ==> s.last[r] <= n)
    ensures Inv(s.(last := s.last[r := n]))
  {
    hide StreamInv, PdevInv;
    var t := s.(last := s.last[r := n]);
    SameShapes(s);
    StreamFrame(s, t);
    PdevsKept(s, t);
    forall v | v in s.vdev
      ensures SeqsOk(t, s.vdev[v])
    {
      assert SeqsOk(s, s.vdev[v]);
    }
  }

  // ---------------------------------------------------------------- PDEV commands

  lemma PdevStepKeeps(s: St, a: Act)
    requires Inv(s) && Enabled(s, a) && IsPdevAct(a)
    ensures Inv(PdevStep(s, a))
  {
    if a.PdevCreate? {
      PdevCreateKeeps(s, a);
    } else if a.PdevDestroy? {
      PdevDestroyKeeps(s, a.p);
    } else {
      OnePdevMoves(s, a);
      PdevUpdate(s, a.p, PdevStep(s, a).pdev[a.p]);
    }
  }

  lemma OnePdevMoves(s: St, a: Act)
    requires Inv(s) && Enabled(s, a) && IsPdevAct(a) && !a.PdevCreate? && !a.PdevDestroy?
    ensures a.p in s.pdev && PdevStep(s, a) == SetPdev(s, a.p, PdevStep(s, a).pdev[a.p])
    ensures var y := PdevStep(s, a).pdev[a.p]; SameShape(s.pdev[a.p], y) && LinkOk(y.link) && StopOk(y) && AppOk(s, a.p, y)
  {
    hide VdevInv, SlotsOk, StreamInv;
    StreamSound(s, a.p);
  }

  lemma InvParts(s: St)
    requires Inv(s)
    ensures PdevInv(s) && StreamInv(s) && VdevInv(s)
  {
  }

  lemma StreamSound(s: St, p: nat)
    requires Inv(s) && p in s.pdev
    ensures StreamOk(s, p)
  {
  }

  lemma PdevCreateKeeps(s: St, a: Act)
    requires Inv(s) && Enabled(s, a) && a.PdevCreate?
    ensures Inv(PdevStep(s, a))
  {
    hide PdevInv, StreamInv, VdevInv;
    var t := PdevStep(s, a);
    AllFree(t.pdev[a.p].slots);
    NewStreams(s, t, a.p);
    NewVdevs(s, t, a.p);
    NewPdevs(s, t, a.p);
  }

  lemma NewVdevs(s: St, t: St, p: nat)
    requires VdevInv(s) && p !in s.pdev && p in t.pdev && t == SetPdev(s, p, t.pdev[p])
    ensures VdevInv(t)
  {
  }

  lemma NewPdevs(s: St, t: St, p: nat)
    requires PdevInv(s) && p !in s.pdev && p in t.pdev && t == SetPdev(s, p, t.pdev[p])
    requires LinkOk(t.pdev[p].link) && StopOk(t.pdev[p]) && SlotsOk(t.pdev[p]) && AppOk(t, p, t.pdev[p])
    ensures PdevInv(t)
  {
    forall o | o in s.pdev
      ensures AppOk(t, o, t.pdev[o])
    {
      assert AppOk(s, o, s.pdev[o]);
    }
  }

  lemma NewStreams(s: St, t: St, p: nat)
    requires StreamInv(s) && VdevInv(s) && p !in s.pdev && t.vdev == s.vdev && p in t.pdev && t.pdev == s.pdev[p := t.pdev[p]]
    requires !t.pdev[p].stream.taken && t.pdev[p].streams == 0 && t.pdev[p].num == 0
    ensures StreamInv(t)
  {
    forall h | h in s.pdev && s.pdev[h].stream.taken
      ensures s.pdev[h].stream.pd2 != p
    {
      assert StreamOk(s, h);
    }
    forall v | v in s.vdev
      ensures s.vdev[v].pdev != p
    {
      assert PlaceOk(s, s.vdev[v]);
    }
    assert StreamsOf(t, p) == {} && VdevsOf(t, p) == {};
    hide StreamsOf, VdevsOf, VdevInv;
    forall o | o in t.pdev && o != p
      ensures StreamOk(t, o) && CountOk(t, o)
    {
      assert StreamOk(s, o) && CountOk(s, o);
      OldStreams(s, t, p, o);
    }
  }

  lemma OldStreams(s: St, t: St, p: nat, o: nat)
    requires p !in s.pdev && t.vdev == s.vdev && p in t.pdev && t.pdev == s.pdev[p := t.pdev[p]] && !t.pdev[p].stream.taken
    requires o in s.pdev && StreamOk(s, o)
    ensures StreamsOf(t, o) == StreamsOf(s, o) && VdevsOf(t, o) == VdevsOf(s, o) && StreamOk(t, o)
  {
  }

  lemma PdevDestroyKeeps(s: St, p: nat)
    requires Inv(s) && Enabled(s, PdevDestroy(p))
    ensures Inv(PdevStep(s, PdevDestroy(p)))
  {
    hide PdevInv, StreamInv, VdevInv;
    var t := PdevStep(s, PdevDestroy(p));
    Unreferenced(s, p);
    GoneStreams(s, t, p);
    assert VdevInv(t) by {
      GoneVdevs(s, t, p);
    }
    GonePdevs(s, t, p);
  }

  lemma GoneStreams(s: St, t: St, p: nat)
    requires StreamInv(s) && p in s.pdev && !s.pdev[p].stream.taken && t == s.(pdev := s.pdev - {p})
    requires forall h :: h in s.pdev && s.pdev[h].stream.taken ==> s.pdev[h].stream.pd2 != p
    ensures StreamInv(t)
  {
    hide CountOk;
    forall o | o in t.pdev
      ensures StreamOk(t, o) && CountOk(t, o)
    {
      assert StreamOk(s, o) && CountOk(s, o);
      SameCounts(s, t, o) by {
        assert StreamsOf(t, o) == StreamsOf(s, o) && VdevsOf(t, o) == VdevsOf(s, o);
      }
    }
  }

  lemma SameCounts(s: St, t: St, o: nat)
    requires o in s.pdev && o in t.pdev && CountOk(s, o) && t.pdev[o] == s.pdev[o]
    requires StreamsOf(t, o) == StreamsOf(s, o) && VdevsOf(t, o) == VdevsOf(s, o)
    ensures CountOk(t, o)
  {
  }

  lemma GoneVdevs(s: St, t: St, p: nat)
    requires VdevInv(s) && t == s.(pdev := s.pdev - {p}) && forall v :: v in s.vdev ==> s.vdev[v].pdev != p
    ensures VdevInv(t)
  {
  }

  lemma GonePdevs(s: St, t: St, p: nat)
    requires PdevInv(s) && t == s.(pdev := s.pdev - {p})
    ensures PdevInv(t)
  {
    forall o | o in t.pdev
      ensures AppOk(t, o, t.pdev[o])
    {
      assert AppOk(s, o, s.pdev[o]);
    }
  }

  // Nothing refers to a PDEV that stops or has stopped.
  lemma Unreferenced(s: St, p: nat)
    requires Inv(s) && p in s.pdev && (s.pdev[p].link.op == Stop || s.pdev[p].link.state == Stopped)
    ensures !s.pdev[p].stream.taken
    ensures forall h :: h in s.pdev && s.pdev[h].stream.taken ==> s.pdev[h].stream.pd2 != p
    ensures forall v :: v in s.vdev ==> s.vdev[v].pdev != p
  {
    assert StopOk(s.pdev[p]) && CountOk(s, p);
    assert StreamsOf(s, p) == {} && VdevsOf(s, p) == {};
    forall h | h in s.pdev && s.pdev[h].stream.taken
      ensures s.pdev[h].stream.pd2 != p && h != p
    {
      assert h !in StreamsOf(s, p);
    }
    forall v | v in s.vdev
      ensures s.vdev[v].pdev != p
    {
      assert v !in VdevsOf(s, p);
    }
  }

  // ---------------------------------------------------------------- stream commands

  lemma StreamStepKeeps(s: St, a: Act)
    requires Inv(s) && Enabled(s, a) && IsStreamAct(a)
    ensures Inv(StreamStep(s, a))
  {
    hide PdevInv, StreamInv, VdevInv, Inv;
    StreamPdevs(s, a);
    StreamCounts(s, a);
    VdevSlotsKept(s, StreamStep(s, a)) by { InvParts(s); }
    assert PdevInv(StreamStep(s, a)) && StreamInv(StreamStep(s, a)) && VdevInv(StreamStep(s, a));
    Whole(StreamStep(s, a));
  }

  lemma Whole(s: St)
    requires PdevInv(s) && StreamInv(s) && VdevInv(s)
    ensures Inv(s)
  {
  }

  lemma VdevSlotsKept(s: St, t: St)
    requires VdevInv(s) && t.vdev == s.vdev && t.last == s.last && t.pdev.Keys == s.pdev.Keys
    requires forall p :: p in s.pdev ==> t.pdev[p].slots == s.pdev[p].slots
    ensures VdevInv(t)
  {
  }

  // A PDEV with a stream or a VDEV neither stops nor has stopped.
  lemma StreamEndsLive(s: St, p: nat, h: nat)
    requires Inv(s) && p in s.pdev && h in StreamsOf(s, p)
    ensures s.pdev[p].link.op != Stop && s.pdev[p].link.state != Stopped && s.pdev[p].streams > 0
  {
    assert CountOk(s, p) && StopOk(s.pdev[p]);
  }

  // A stream command moves the links and the stream counters of its two ends.
  predicate MovesLinks(s: St, t: St, p: nat, q: nat) {
    && t.vdev == s.vdev && t.last == s.last && t.pdev.Keys == s.pdev.Keys
    && (forall o :: o in s.pdev && o != p && o != q ==> t.pdev[o] == s.pdev[o])
    && (forall o :: o in s.pdev && (o == p || o == q) ==> LinkMoves(s.pdev[o], t.pdev[o]))
  }

  predicate LinkMoves(x: Pdev, y: Pdev) {
    && y.slots == x.slots && y.num == x.num && y.yielded == x.yielded && y.owner == x.owner
    && y.link.kind == x.link.kind && y.link.state == x.link.state && y.link.state != Stopped && y.link.op != Stop
    && (y.link.comm == x.link.comm || y.link.comm == Pending)
  }

  lemma BeginLinks(s: St, p: nat, q: nat, op: Op, stream: Stream, added: nat)
    requires p in s.pdev && q in s.pdev && p != q && op != Stop
    requires s.pdev[p].link.state != Stopped && s.pdev[q].link.state != Stopped
    ensures MovesLinks(s, BothBegin(s, p, q, op, stream, added), p, q)
  {
  }

  lemma EndLinks(s: St, p: nat, q: nat)
    requires CanStream(s, p, q) && s.pdev[p].link.state != Stopped && s.pdev[q].link.state != Stopped
    ensures MovesLinks(s, Ended(s, p, q), p, q)
  {
  }

  lemma StreamLinks(s: St, a: Act)
    requires Enabled(s, a) && IsStreamAct(a)
    ensures MovesLinks(s, StreamStep(s, a), a.p, a.q)
  {
    hide MovesLinks, BothBegin, Ended;
    if a.StreamConnect? {
      BeginLinks(s, a.p, a.q, Connect, Stream(true, Connecting, a.q, a.ranges), 1);
    } else if a.StreamDisconnect? {
      BeginLinks(s, a.p, a.q, Disconnect, s.pdev[a.p].stream.(state := Disconnecting), 0);
    } else if a.StreamRefresh? {
      BeginLinks(s, a.p, a.q, KeyRefresh, s.pdev[a.p].stream.(state := Refreshing), 0);
    } else {
      EndLinks(s, a.p, a.q);
    }
  }

  lemma StreamPdevs(s: St, a: Act)
    requires Inv(s) && Enabled(s, a) && IsStreamAct(a)
    ensures PdevInv(StreamStep(s, a)) && MovesLinks(s, StreamStep(s, a), a.p, a.q)
  {
    hide VdevInv, StreamInv, Enabled, StreamStep, SlotsOk;
    StreamLinks(s, a);
    LinksKept(s, StreamStep(s, a), a.p, a.q);
  }

  lemma LinksKept(s: St, t: St, p: nat, q: nat)
    requires PdevInv(s) && MovesLinks(s, t, p, q)
    ensures PdevInv(t)
  {
    hide RangesSorted, Disjoint, ActiveCount;
    forall o | o in t.pdev
      ensures LinkOk(t.pdev[o].link) && StopOk(t.pdev[o]) && SlotsOk(t.pdev[o]) && AppOk(t, o, t.pdev[o])
    {
      assert LinkOk(s.pdev[o].link) && StopOk(s.pdev[o]) && SlotsOk(s.pdev[o]) && AppOk(s, o, s.pdev[o]);
    }
  }

  // Both ends count the stream while it is taken.
  lemma StreamCounts(s: St, a: Act)
    requires Inv(s) && Enabled(s, a) && IsStreamAct(a)
    ensures StreamInv(StreamStep(s, a))
  {
    var t := StreamStep(s, a);
    if !a.StreamConnect? {
      StreamEndsLive(s, a.p, a.p);
      StreamEndsLive(s, a.q, a.p);
    }
    StreamMoves(s, a);
    forall o | o in t.pdev
      ensures StreamOk(t, o) && CountOk(t, o)
    {
      OneStreamMoves(s, t, a.p, a.q, o);
    }
  }

  // Only the stream that p heads changes; it is one from p to q whenever it is taken.
  predicate MovesStream(s: St, t: St, p: nat, q: nat) {
    && p in s.pdev && q in s.pdev && p != q && t.vdev == s.vdev && t.pdev.Keys == s.pdev.Keys
    && (forall o :: o in s.pdev && o != p ==> t.pdev[o].stream == s.pdev[o].stream)
    && (s.pdev[p].stream.taken ==> s.pdev[p].stream.pd2 == q)
    && (t.pdev[p].stream.taken ==> t.pdev[p].stream.pd2 == q && t.pdev[p].stream.state != Disconnected)
    && (forall o :: o in s.pdev ==> t.pdev[o].num == s.pdev[o].num)
    && (forall o :: o in s.pdev && o != p && o != q ==> t.pdev[o].streams == s.pdev[o].streams)
    && (forall o :: o in s.pdev && (o == p || o == q) ==>
          t.pdev[o].streams - Taken(t.pdev[p]) == s.pdev[o].streams - Taken(s.pdev[p]))
  }

  function Taken(x: Pdev): (n: nat) {
    if x.stream.taken then 1 else 0
  }

  lemma BeginMoves(s: St, p: nat, q: nat, op: Op, stream: Stream, added: nat)
    requires p in s.pdev && q in s.pdev && p != q && stream.taken && stream.pd2 == q && stream.state != Disconnected
    requires s.pdev[p].stream.taken ==> s.pdev[p].stream.pd2 == q
    requires added + Taken(s.pdev[p]) == 1
    ensures MovesStream(s, BothBegin(s, p, q, op, stream, added), p, q)
  {
  }

  lemma EndMoves(s: St, p: nat, q: nat)
    requires CanStream(s, p, q) && s.pdev[p].streams > 0 && s.pdev[q].streams > 0
    ensures MovesStream(s, Ended(s, p, q), p, q)
  {
    hide Ended, MovesStream;
    if Releases(s, p, q) {
      ReleaseMoves(s, p, q);
    } else {
      SettleMoves(s, p, q);
    }
  }

  lemma ReleaseMoves(s: St, p: nat, q: nat)
    requires CanStream(s, p, q) && s.pdev[p].streams > 0 && s.pdev[q].streams > 0 && Releases(s, p, q)
    ensures MovesStream(s, Ended(s, p, q), p, q)
  {
    hide Releases;
  }

  lemma SettleMoves(s: St, p: nat, q: nat)
    requires CanStream(s, p, q) && !Releases(s, p, q)
    ensures MovesStream(s, Ended(s, p, q), p, q)
  {
    hide Releases;
  }

  lemma StreamMoves(s: St, a: Act)
    requires Enabled(s, a) && IsStreamAct(a)
    requires !a.StreamConnect? ==> s.pdev[a.p].streams > 0 && s.pdev[a.q].streams > 0
    ensures MovesStream(s, StreamStep(s, a), a.p, a.q)
  {
    hide MovesStream, BothBegin, Ended;
    if a.StreamConnect? {
      BeginMoves(s, a.p, a.q, Connect, Stream(true, Connecting, a.q, a.ranges), 1);
    } else if a.StreamDisconnect? {
      BeginMoves(s, a.p, a.q, Disconnect, s.pdev[a.p].stream.(state := Disconnecting), 0);
    } else if a.StreamRefresh? {
      BeginMoves(s, a.p, a.q, KeyRefresh, s.pdev[a.p].stream.(state := Refreshing), 0);
    } else {
      EndMoves(s, a.p, a.q);
    }
  }

  lemma OneStreamMoves(s: St, t: St, p: nat, q: nat, o: nat)
    requires StreamInv(s) && MovesStream(s, t, p, q) && o in s.pdev
    ensures StreamOk(t, o) && CountOk(t, o)
  {
    assert StreamOk(s, o) && CountOk(s, o);
    forall h | h != p
      ensures h in StreamsOf(t, o) <==> h in StreamsOf(s, o)
    {
    }
    OneApart(StreamsOf(s, o), StreamsOf(t, o), p);
    assert VdevsOf(t, o) == VdevsOf(s, o);
  }

  // ---------------------------------------------------------------- VDEV commands

  lemma VdevBeginKeeps(s: St, v: nat, op: VdevOp)
    requires Inv(s) && Enabled(s, VdevBegin(v, op))
    ensures Inv(VdevStep(s, VdevBegin(v, op)))
  {
    hide Inv, PdevInv, VdevInv, StreamInv;
    VdevSound(s, v);
    VdevUpdate(s, v, s.vdev[v].(op := op, comm := Pending));
  }

  lemma VdevSound(s: St, v: nat)
    requires Inv(s) && v in s.vdev
    ensures Fits(s.vdev[v]) && SeqsOk(s, s.vdev[v]) && PlaceOk(s, s.vdev[v]) && s.last[s.vdev[v].realm] <= SEQ_MAX
    ensures v in VdevsOf(s, s.vdev[v].pdev)
  {
  }

  // The PDEV of a VDEV neither stops nor has stopped.
  lemma HomeLive(s: St, v: nat)
    requires Inv(s) && v in s.vdev
    ensures var x := s.vdev[v].pdev;
            && x in s.pdev && s.pdev[x].link.op != Stop && s.pdev[x].link.state != Stopped && s.pdev[x].num > 0
            && LinkOk(s.pdev[x].link) && AppOk(s, x, s.pdev[x]) && StreamOk(s, x)
  {
    VdevSound(s, v);
    assert CountOk(s, s.vdev[v].pdev) && StopOk(s.pdev[s.vdev[v].pdev]);
  }

  lemma VdevAbortKeeps(s: St, v: nat)
    requires Inv(s) && Enabled(s, VdevAbort(v))
    ensures Inv(VdevStep(s, VdevAbort(v)))
  {
    hide Inv, PdevInv, VdevInv, StreamInv;
    VdevSound(s, v);
    var x := s.vdev[v].(state := VdevError, comm := Idle);
    VdevUpdate(s, v, x);
    var u := SetVdev(s, v, x);
    HomeLive(u, v);
    PdevUpdate(u, x.pdev, Unwound(s.pdev[x.pdev], TheVdev(v)));
  }

  lemma VdevTalkKeeps(s: St, v: nat, out: Outcome, left: bool)
    requires Inv(s) && Enabled(s, VdevTalk(v, out, left))
    ensures Inv(VdevStep(s, VdevTalk(v, out, left)))
  {
    hide Inv, PdevInv, VdevInv, StreamInv;
    VdevSound(s, v);
    var x := s.vdev[v];
    var y := Talked(x, s.last[x.realm], out, left);
    var u := if out == Success && x.op == Lock then s.(last := s.last[x.realm := s.last[x.realm] + 1]) else s;
    if out == Success && x.op == Lock {
      LastUpdate(s, x.realm, s.last[x.realm] + 1);
      OthersBehind(s, v);
    }
    VdevUpdate(u, v, y);
    var w := SetVdev(u, v, y);
    HomeLive(w, v);
    PdevUpdate(w, x.pdev, Ran(s.pdev[x.pdev], TheVdev(v), left));
    assert VdevStep(s, VdevTalk(v, out, left)) == SetPdev(w, x.pdev, Ran(s.pdev[x.pdev], TheVdev(v), left));
  }

  lemma OthersBehind(s: St, v: nat)
    requires Inv(s) && v in s.vdev
    ensures forall w :: w in s.vdev && s.vdev[w].realm == s.vdev[v].realm ==> s.vdev[w].seqs.lock <= s.last[s.vdev[v].realm]
  {
  }

  lemma VdevCreateKeeps(s: St, a: Act)
    requires Inv(s) && Enabled(s, a) && a.VdevCreate?
    ensures Inv(VdevStep(s, a))
  {
    hide PdevInv, StreamInv, VdevInv, Enabled, VdevStep, Inv;
    InvParts(s);
    AddedShape(s, a);
    AddedPdevs(s, a);
    AddedVdevs(s, a);
    AddedCounts(s, VdevStep(s, a), a.p, a.v);
    Whole(VdevStep(s, a));
  }

  // One PDEV gets one VDEV more.
  predicate Adds(s: St, t: St, p: nat, v: nat) {
    && p in s.pdev && v !in s.vdev && v in t.vdev && t.vdev == s.vdev[v := t.vdev[v]] && t.vdev[v].pdev == p
    && p in t.pdev && t.pdev == s.pdev[p := t.pdev[p]] && t.pdev[p].stream == s.pdev[p].stream
    && t.pdev[p].streams == s.pdev[p].streams && t.pdev[p].num == s.pdev[p].num + 1 && t.last == s.last
  }

  lemma AddedShape(s: St, a: Act)
    requires Enabled(s, a) && a.VdevCreate?
    ensures Adds(s, VdevStep(s, a), a.p, a.v)
  {
  }

  lemma AddedPdevs(s: St, a: Act)
    requires Inv(s) && Enabled(s, a) && a.VdevCreate?
    ensures PdevInv(VdevStep(s, a))
  {
    AddedFrame(s, a);
    AddedSlots(s, a);
    hide VdevInv, StreamInv, VdevStep, Enabled, SlotsOk;
    assert a.p in StreamsOf(s, a.p);
    StreamEndsLive(s, a.p, a.p);
    AddedApps(s, VdevStep(s, a), a.p, a.v);
  }

  lemma AddedFrame(s: St, a: Act)
    requires Enabled(s, a) && a.VdevCreate?
    ensures var t := VdevStep(s, a);
            && t.pdev.Keys == s.pdev.Keys && a.p in s.pdev && a.v !in s.vdev && t.vdev == s.vdev[a.v := t.vdev[a.v]]
            && (forall o :: o in s.pdev && o != a.p ==> t.pdev[o] == s.pdev[o])
            && t.pdev[a.p] == s.pdev[a.p].(slots := t.pdev[a.p].slots, num := t.pdev[a.p].num)
            && s.pdev[a.p].stream.taken && s.pdev[a.p].link.state == Ready
  {
    hide Sorted, Clash, Covered;
  }

  lemma AddedSlots(s: St, a: Act)
    requires PdevInv(s) && Enabled(s, a) && a.VdevCreate?
    ensures a.p in VdevStep(s, a).pdev && SlotsOk(VdevStep(s, a).pdev[a.p])
  {
    var x := s.pdev[a.p];
    assert SlotsOk(x);
    CountUpdate(x.slots, a.slot, Slot(true, a.ranges));
    SetKeepsDisjoint(x.slots, a.slot, a.ranges);
  }

  // One PDEV gets a VDEV, and has a stream.
  lemma AddedApps(s: St, t: St, p: nat, v: nat)
    requires PdevInv(s) && t.pdev.Keys == s.pdev.Keys && p in s.pdev && v !in s.vdev && v in t.vdev
    requires t.vdev == s.vdev[v := t.vdev[v]] && (forall o :: o in s.pdev && o != p ==> t.pdev[o] == s.pdev[o])
    requires t.pdev[p] == s.pdev[p].(slots := t.pdev[p].slots, num := t.pdev[p].num)
    requires s.pdev[p].streams > 0 && SlotsOk(t.pdev[p])
    ensures PdevInv(t)
  {
    hide SlotsOk;
    forall o | o in t.pdev
      ensures LinkOk(t.pdev[o].link) && StopOk(t.pdev[o]) && SlotsOk(t.pdev[o]) && AppOk(t, o, t.pdev[o])
    {
      assert LinkOk(s.pdev[o].link) && StopOk(s.pdev[o]) && AppOk(s, o, s.pdev[o]) && SlotsOk(s.pdev[o]);
    }
  }

  lemma AddedVdevs(s: St, a: Act)
    requires VdevInv(s) && Enabled(s, a) && a.VdevCreate?
    ensures VdevInv(VdevStep(s, a))
  {
    var t := VdevStep(s, a);
    forall w | w in s.vdev
      ensures Fits(t.vdev[w]) && SeqsOk(t, t.vdev[w]) && PlaceOk(t, t.vdev[w])
      ensures Distinct(t.vdev[w], t.vdev[a.v]) && Distinct(t.vdev[a.v], t.vdev[w])
    {
      assert Fits(s.vdev[w]) && SeqsOk(s, s.vdev[w]) && PlaceOk(s, s.vdev[w]);
    }
  }

  lemma AddedSets(s: St, t: St, p: nat, v: nat, o: nat)
    requires Adds(s, t, p, v) && o in s.pdev
    ensures StreamsOf(t, o) == StreamsOf(s, o) && |VdevsOf(t, o)| == |VdevsOf(s, o)| + (if o == p then 1 else 0)
    ensures o in t.pdev && (StreamOk(t, o) <==> StreamOk(s, o)) && t.pdev[o].streams == s.pdev[o].streams
    ensures t.pdev[o].num == s.pdev[o].num + (if o == p then 1 else 0)
  {
    if o == p {
      assert VdevsOf(t, o) == VdevsOf(s, o) + {v} && v !in VdevsOf(s, o);
    } else {
      assert VdevsOf(t, o) == VdevsOf(s, o);
    }
  }

  lemma AddedCounts(s: St, t: St, p: nat, v: nat)
    requires StreamInv(s) && Adds(s, t, p, v)
    ensures StreamInv(t)
  {
    hide StreamOk, StreamsOf, VdevsOf;
    forall o | o in t.pdev
      ensures StreamOk(t, o) && CountOk(t, o)
    {
      assert StreamOk(s, o) && CountOk(s, o);
      AddedSets(s, t, p, v, o);
    }
  }

  lemma VdevDestroyKeeps(s: St, v: nat)
    requires Inv(s) && Enabled(s, VdevDestroy(v))
    ensures Inv(VdevStep(s, VdevDestroy(v)))
  {
    hide PdevInv, StreamInv, VdevInv, Enabled, VdevStep, Inv;
    InvParts(s);
    RemovedShape(s, v);
    RemovedPdevs(s, v);
    RemovedVdevs(s, v);
    AddedCountsBack(s, VdevStep(s, VdevDestroy(v)), s.vdev[v].pdev, v);
    Whole(VdevStep(s, VdevDestroy(v)));
  }

  // Destroying is creating backwards, as far as the counters go.
  lemma RemovedShape(s: St, v: nat)
    requires Enabled(s, VdevDestroy(v))
    ensures v in s.vdev && Adds(VdevStep(s, VdevDestroy(v)), s, s.vdev[v].pdev, v)
  {
    var t := VdevStep(s, VdevDestroy(v));
    assert s.vdev == t.vdev[v := s.vdev[v]];
    assert s.pdev == t.pdev[s.vdev[v].pdev := s.pdev[s.vdev[v].pdev]];
  }

  lemma RemovedPdevs(s: St, v: nat)
    requires Inv(s) && Enabled(s, VdevDestroy(v))
    ensures PdevInv(VdevStep(s, VdevDestroy(v)))
  {
    hide VdevInv, StreamInv;
    var t, x := VdevStep(s, VdevDestroy(v)), s.vdev[v];
    VdevSound(s, v);
    HomeLive(s, v);
    CountUpdate(s.pdev[x.pdev].slots, x.slot, FREE);
    forall o | o in t.pdev
      ensures AppOk(t, o, t.pdev[o]) && SlotsOk(t.pdev[o])
    {
      assert AppOk(s, o, s.pdev[o]) && SlotsOk(s.pdev[o]);
    }
  }

  lemma RemovedVdevs(s: St, v: nat)
    requires VdevInv(s) && Enabled(s, VdevDestroy(v))
    ensures VdevInv(VdevStep(s, VdevDestroy(v)))
  {
    var t := VdevStep(s, VdevDestroy(v));
    forall w | w in t.vdev
      ensures Fits(t.vdev[w]) && SeqsOk(t, t.vdev[w]) && PlaceOk(t, t.vdev[w])
    {
      assert Fits(s.vdev[w]) && SeqsOk(s, s.vdev[w]) && PlaceOk(s, s.vdev[w]) && Distinct(s.vdev[w], s.vdev[v]);
    }
  }

  lemma AddedCountsBack(s: St, t: St, p: nat, v: nat)
    requires StreamInv(s) && Adds(t, s, p, v)
    ensures StreamInv(t)
  {
    hide StreamOk, StreamsOf, VdevsOf;
    forall o | o in t.pdev
      ensures StreamOk(t, o) && CountOk(t, o)
    {
      assert o in s.pdev && StreamOk(s, o) && CountOk(s, o);
      AddedSets(t, s, p, v, o);
    }
  }

  // ---------------------------------------------------------------- every command

  lemma StepKeepsInv(s: St, a: Act)
    requires Inv(s) && Enabled(s, a)
    ensures Inv(Step(s, a))
  {
    hide Inv, Enabled, PdevStep, StreamStep, VdevStep;
    if IsPdevAct(a) {
      PdevStepKeeps(s, a);
    } else if IsStreamAct(a) {
      StreamStepKeeps(s, a);
    } else if IsVdevAct(a) {
      match a {
        case VdevCreate(_, _, _, _, _, _) => VdevCreateKeeps(s, a);
        case VdevBegin(v, op) => VdevBeginKeeps(s, v, op);
        case VdevTalk(v, out, left) => VdevTalkKeeps(s, v, out, left);
        case VdevAbort(v) => VdevAbortKeeps(s, v);
        case VdevDestroy(v) => VdevDestroyKeeps(s, v);
      }
    } else {
      NewRealm(s, a);
      LastUpdate(s, a.realm, 0);
    }
  }

  lemma NewRealm(s: St, a: Act)
    requires Enabled(s, a) && a.RealmCreate?
    ensures a.realm !in s.last
  {
  }
}
