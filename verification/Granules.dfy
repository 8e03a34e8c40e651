/**
  * Range delegation and undelegation of granules as a state machine.
  *
  * A granule (page) has a tracked state and a physical address space (PAS).  EL3 moves a range from one
  * PAS to the other, as far as it likes in one call, so an operation may have to be continued, retried
  * or rolled back; meanwhile a stateful operation (SRO) owns the part of the range that is PARTIAL.
  */
module Granules {
  datatype Track = NonSecure | Delegated | Partial | InUse

  // EL3's answer to one request; `progress` pages were moved.
  datatype Answer = Ok | Busy | Again | InProgress | Failed

  // A delegation moves pages lo up to lo + n to Realm PAS and has moved the first `done`.  When
  // `rolling` it moves these back and has moved back the first `rolled`.  `el3` says that EL3 holds an
  // unfinished request.  `host` is the address the Host asked for.
  datatype Sro =
    | DelSro(host: nat, lo: nat, n: nat, coarse: bool, done: nat, rolling: bool, rolled: nat, el3: bool)
    // An undelegation scrubs all of its pages (`clean` so far) before the first one is moved.
    | UndSro(host: nat, lo: nat, n: nat, coarse: bool, dev: bool, done: nat, clean: nat, el3: bool)

  // `realm` holds the pages in Realm PAS, `dirty` those with data written while in Realm use, `device`
  // the pages of device memory.
  datatype St = St(gran: map<nat, Track>, realm: set<nat>, dirty: set<nat>, device: set<nat>, sros: map<nat, Sro>)

  datatype Reply = Incomplete | Success(x1: nat) | Error(x1: nat)

  // ---------------------------------------------------------------- ranges

  predicate In(lo: nat, hi: nat, p: nat) {
    lo <= p < hi
  }

  function Range(lo: nat, hi: nat): (r: set<nat>) {
    set p: nat | lo <= p < hi && In(lo, hi, p)
  }

  function Put(g: map<nat, Track>, lo: nat, hi: nat, to: Track): (r: map<nat, Track>) {
    map p | p in g :: if In(lo, hi, p) then to else g[p]
  }

  predicate All(g: map<nat, Track>, lo: nat, hi: nat, t: Track) {
    forall p :: lo <= p < hi ==> p in g && g[p] == t
  }

  // ---------------------------------------------------------------- EL3

  // What EL3 may answer when `left` pages remain: success moves something, a stateful answer leaves
  // something, BUSY moves nothing; moving owned pages out of Realm PAS is never refused.
  predicate Legal(ans: Answer, progress: nat, left: nat, delegate: bool) {
    && progress <= left
    && (ans == Ok ==> progress > 0)
    && (ans == InProgress ==> progress < left)
    && (ans == Busy ==> progress == 0)
    && (!delegate ==> ans == Ok || ans == InProgress || ans == Busy)
  }

  predicate StillOpen(ans: Answer, el3: bool) {
    ans == InProgress || (el3 && ans == Busy)
  }

  predicate MayRetry(ans: Answer) {
    ans == Ok || ans == Busy
  }

  function Keep(s: St, h: nat, o: Sro): (r: St) {
    s.(sros := s.sros[h := o])
  }

  function Drop(s: St, h: nat): (r: St) {
    s.(sros := s.sros - {h})
  }

  function DelAt(o: Sro, done: nat, el3: bool): (r: Sro)
    requires o.DelSro?
  {
    DelSro(o.host, o.lo, o.n, o.coarse, done, o.rolling, o.rolled, el3)
  }

  function UndAt(o: Sro, done: nat, el3: bool): (r: Sro)
    requires o.UndSro?
  {
    UndSro(o.host, o.lo, o.n, o.coarse, o.dev, done, o.clean, el3)
  }

  // ---------------------------------------------------------------- delegation

  // The first EL3 request of a delegation, for pages that are all Non-secure.
  function DelStart(s: St, h: nat, host: nat, lo: nat, n: nat, coarse: bool, k: nat, ans: Answer): (r: (St, Reply))
    requires Legal(ans, k, n, true) && n > 0
  {
    var moved := s.(realm := s.realm + Range(lo, lo + k));
    var sro := DelSro(host, lo, n, coarse, k, false, 0, ans == InProgress);
    if !coarse then
      var published := moved.(gran := Put(s.gran, lo, lo + k, Delegated));
      if ans == InProgress then
        (Keep(published.(gran := Put(published.gran, lo + k, lo + n, Partial)), h, sro), Incomplete)
      else if k > 0 then (published, Success(lo + k))
      else (s, Error(host))
    else if ans == InProgress || (0 < k < n && MayRetry(ans)) then
      (Keep(moved.(gran := Put(s.gran, lo, lo + n, Partial)), h, sro), Incomplete)
    else if k == n then (moved.(gran := Put(s.gran, lo, lo + n, Delegated)), Success(lo + n))
    else if k == 0 then (s, Error(host))
    else (Keep(moved.(gran := Put(s.gran, lo, lo + n, Partial)), h, sro.(rolling := true)), Incomplete)
  }

  // A continuation of the delegation phase.
  function DelResume(s: St, h: nat, k: nat, ans: Answer): (r: (St, Reply))
    requires h in s.sros && s.sros[h].DelSro? && !s.sros[h].rolling && s.sros[h].done < s.sros[h].n
    requires Legal(ans, k, s.sros[h].n - s.sros[h].done, true)
  {
    var o := s.sros[h];
    var done := o.done + k;
    var at, top := o.lo + done, o.lo + o.n;
    var open := StillOpen(ans, o.el3);
    var moved := s.(realm := s.realm + Range(o.lo + o.done, at),
                    gran := if o.coarse then s.gran else Put(s.gran, o.lo + o.done, at, Delegated));
    if open || (MayRetry(ans) && done < o.n && (o.coarse || (done == 0 && o.lo == o.host))) then
      (Keep(moved, h, DelAt(o, done, open)), Incomplete)
    else if !o.coarse then
      (Drop(moved.(gran := Put(moved.gran, at, top, NonSecure)), h), if at > o.host then Success(at) else Error(o.host))
    else if done == o.n then (Drop(moved.(gran := Put(moved.gran, o.lo, top, Delegated)), h), Success(top))
    else if done == 0 then (Drop(moved.(gran := Put(moved.gran, o.lo, top, NonSecure)), h), Error(o.host))
    else (Keep(moved, h, o.(done := done, el3 := false, rolling := true)), Incomplete)
  }

  // A continuation of the rollback phase of a coarse delegation.
  function RollResume(s: St, h: nat, k: nat, ans: Answer): (r: (St, Reply))
    requires h in s.sros && s.sros[h].DelSro? && s.sros[h].rolling && s.sros[h].rolled < s.sros[h].done
    requires Legal(ans, k, s.sros[h].done - s.sros[h].rolled, false)
  {
    var o := s.sros[h];
    var rolled := o.rolled + k;
    var moved := s.(realm := s.realm - Range(o.lo + o.rolled, o.lo + rolled));
    if StillOpen(ans, o.el3) || rolled < o.done then
      (Keep(moved, h, o.(rolled := rolled, el3 := StillOpen(ans, o.el3))), Incomplete)
    else (Drop(moved.(gran := Put(s.gran, o.lo, o.lo + o.n, NonSecure)), h), Error(o.host))
  }

  // ---------------------------------------------------------------- undelegation

  // Claims pages that are all DELEGATED.
  function UndStart(s: St, h: nat, host: nat, lo: nat, n: nat, coarse: bool, dev: bool): (r: St) {
    Keep(s.(gran := Put(s.gran, lo, lo + n, Partial)), h, UndSro(host, lo, n, coarse, dev, 0, 0, false))
  }

  function Scrub(s: St, h: nat): (r: St)
    requires h in s.sros && s.sros[h].UndSro?
  {
    var o := s.sros[h];
    Keep(s.(dirty := s.dirty - {o.lo + o.clean}), h, o.(clean := o.clean + 1))
  }

  // One EL3 request of an undelegation, after everything has been scrubbed.  `entry` says that this is
  // still the Host's first call.
  function UndResume(s: St, h: nat, k: nat, ans: Answer, entry: bool): (r: (St, Reply))
    requires h in s.sros && s.sros[h].UndSro? && s.sros[h].done < s.sros[h].n
    requires Legal(ans, k, s.sros[h].n - s.sros[h].done, false)
  {
    var o := s.sros[h];
    var done := o.done + k;
    var at, top := o.lo + done, o.lo + o.n;
    var open := StillOpen(ans, o.el3);
    var moved := s.(realm := s.realm - Range(o.lo + o.done, at),
                    gran := if o.coarse then s.gran else Put(s.gran, o.lo + o.done, at, NonSecure));
    if open then (Keep(moved, h, UndAt(o, done, true)), Incomplete)
    else if !o.coarse then
      if done == 0 && o.lo == o.host && ans == Busy && !entry then (Keep(moved, h, UndAt(o, done, false)), Incomplete)
      else
        (Drop(moved.(gran := Put(moved.gran, at, top, Delegated)), h),
         if done == 0 && o.lo == o.host then Error(at) else Success(at))
    else if done < o.n then (Keep(moved, h, UndAt(o, done, false)), Incomplete)
    else (Drop(moved.(gran := Put(moved.gran, o.lo, top, NonSecure)), h), Success(top))
  }

  // ---------------------------------------------------------------- all actions

  datatype Act =
    // A DELEGATED page is put to Realm use, written there, and given back.
    | Use(p: nat)
    | Write(p: nat)
    | Free(p: nat)
    | Delegate(h: nat, host: nat, lo: nat, n: nat, coarse: bool, k: nat, ans: Answer)
    | Continue(h: nat, k: nat, ans: Answer)
    | Rollback(h: nat, k: nat, ans: Answer)
    | Claim(h: nat, host: nat, lo: nat, n: nat, coarse: bool, dev: bool)
    | Sanitize(h: nat)
    | Undelegate(h: nat, k: nat, ans: Answer, entry: bool)

  predicate Is(s: St, p: nat, t: Track) {
    p in s.gran && s.gran[p] == t
  }

  predicate Enabled(s: St, a: Act) {
    match a
    case Use(p) => Is(s, p, Delegated)
    case Write(p) => Is(s, p, InUse)
    case Free(p) => Is(s, p, InUse)
    case Delegate(h, host, lo, n, coarse, k, ans) =>
      h !in s.sros && n > 0 && host <= lo && All(s.gran, lo, lo + n, NonSecure) && Legal(ans, k, n, true)
    case Continue(h, k, ans) =>
      && h in s.sros && s.sros[h].DelSro? && !s.sros[h].rolling && s.sros[h].done < s.sros[h].n
      && Legal(ans, k, s.sros[h].n - s.sros[h].done, true)
    case Rollback(h, k, ans) =>
      && h in s.sros && s.sros[h].DelSro? && s.sros[h].rolling && s.sros[h].rolled < s.sros[h].done
      && Legal(ans, k, s.sros[h].done - s.sros[h].rolled, false)
    case Claim(h, host, lo, n, coarse, dev) =>
      && h !in s.sros && n > 0 && host <= lo && All(s.gran, lo, lo + n, Delegated)
      && (dev ==> Range(lo, lo + n) <= s.device)
    case Sanitize(h) => h in s.sros && s.sros[h].UndSro? && !s.sros[h].dev && s.sros[h].clean < s.sros[h].n
    case Undelegate(h, k, ans, entry) =>
      && h in s.sros && s.sros[h].UndSro? && s.sros[h].done < s.sros[h].n
      && (s.sros[h].dev || s.sros[h].clean == s.sros[h].n)
      && Legal(ans, k, s.sros[h].n - s.sros[h].done, false)
  }

  function Step(s: St, a: Act): (r: St)
    requires Enabled(s, a)
  {
    match a
    case Use(p) => s.(gran := s.gran[p := InUse])
    case Write(p) => s.(dirty := s.dirty + {p})
    case Free(p) => s.(gran := s.gran[p := Delegated])
    case Delegate(h, host, lo, n, coarse, k, ans) => DelStart(s, h, host, lo, n, coarse, k, ans).0
    case Continue(h, k, ans) => DelResume(s, h, k, ans).0
    case Rollback(h, k, ans) => RollResume(s, h, k, ans).0
    case Claim(h, host, lo, n, coarse, dev) => UndStart(s, h, host, lo, n, coarse, dev)
    case Sanitize(h) => Scrub(s, h)
    case Undelegate(h, k, ans, entry) => UndResume(s, h, k, ans, entry).0
  }
}
