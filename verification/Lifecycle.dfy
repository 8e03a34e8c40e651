/**
  * The life of Realms and RECs as an interleaving of the steps of any number of processing elements.
  *
  * A section under a granule lock is one step; every load and every compare-and-swap of the lock-free
  * state-and-count word is a step of its own.
  */
module Lifecycle {
  // ---------------------------------------------------------------- the packed word

  // Bits 63:62 hold the state of the Realm, bits 61:0 the number of RECs inside.
  const COUNT_LIMIT: nat := 0x4000_0000_0000_0000
  const WORD_LIMIT: nat := 0x1_0000_0000_0000_0000

  const NEW: nat := 0
  const ACTIVE: nat := 1
  const SYSTEM_OFF: nat := 2
  const ZOMBIE: nat := 3

  function Pack(state: nat, count: nat): (w: nat) {
    state * COUNT_LIMIT + count
  }

  function StateOf(w: nat): (s: nat) {
    w / COUNT_LIMIT
  }

  function CountOf(w: nat): (c: nat) {
    w % COUNT_LIMIT
  }

  lemma Unpack(state: nat, count: nat)
    requires state <= ZOMBIE && count < COUNT_LIMIT
    ensures StateOf(Pack(state, count)) == state && CountOf(Pack(state, count)) == count && Pack(state, count) < WORD_LIMIT
  {
  }

  lemma Repack(w: nat)
    requires w < WORD_LIMIT
    ensures Pack(StateOf(w), CountOf(w)) == w && StateOf(w) <= ZOMBIE && CountOf(w) < COUNT_LIMIT
  {
  }

  // Adding or subtracting one moves the count and leaves the state, as long as the count neither overflows
  // nor is zero.
  lemma PlusOne(w: nat)
    requires w < WORD_LIMIT && CountOf(w) + 1 < COUNT_LIMIT
    ensures StateOf(w + 1) == StateOf(w) && CountOf(w + 1) == CountOf(w) + 1 && w + 1 < WORD_LIMIT
  {
  }

  lemma MinusOne(w: nat)
    requires 0 < w < WORD_LIMIT && CountOf(w) > 0
    ensures StateOf(w - 1) == StateOf(w) && CountOf(w - 1) == CountOf(w) - 1
  {
  }

  // ---------------------------------------------------------------- state

  // `reqMpidr` and `target` are the MPIDR of an outstanding CPU_ON and the address its lookup gave;
  // `asked` and `answered` count requests and their completions, and `told` is the last answer.
  datatype Rec = Rec(realm: nat, mpidr: nat, runnable: bool, pending: bool, reqMpidr: nat, target: nat, rc: nat,
                     asked: nat, answered: nat, told: Told)

  datatype Told = Nothing | SwitchedOn | AlreadyOn | Denied

  datatype Pc =
    | Idle
    // RMI_REC_ENTER on a REC, from the claim of its reference to the return of it
    | Claimed(rec: nat)
    | IncLoaded(rec: nat, seen: nat)
    | Counted(rec: nat)
    | Running(rec: nat)
    | OffLocked(rec: nat)
    | OffLoaded(rec: nat, seen: nat)
    | Exiting(rec: nat)
    | Leaving(rec: nat)
    // RMI_REALM_ACTIVATE and RMI_REALM_TERMINATE under the RD lock
    | ActLocked(realm: nat)
    | ActLoaded(realm: nat, seen: nat)
    | TermLocked(realm: nat)
    | TermLoaded(realm: nat, state: nat)
    // RMI_PSCI_COMPLETE between its two locked sections
    | Completing(caller: nat, target: nat, denied: bool)
    | Denying(caller: nat)

  // `word` by Realm, `lock` the holder of the RD lock of a Realm, `rec` by address, `map` the address of a
  // REC by Realm and MPIDR, `pc` by processing element.
  datatype St = St(word: map<nat, nat>, lock: map<nat, nat>, rec: map<nat, Rec>, where: map<(nat, nat), nat>, pc: map<nat, Pc>)

  predicate InRec(c: Pc) {
    c.Claimed? || c.IncLoaded? || c.Counted? || c.Running? || c.OffLocked? || c.OffLoaded? || c.Exiting? || c.Leaving?
  }

  // Between the increment and the decrement of the count.
  predicate IsInside(c: Pc) {
    c.Counted? || c.Running? || c.OffLocked? || c.OffLoaded? || c.Exiting?
  }

  predicate IsRunning(c: Pc) {
    c.Running? || c.OffLocked? || c.OffLoaded?
  }

  predicate At(s: St, pe: nat, c: Pc) {
    pe in s.pc && s.pc[pe] == c
  }

  // ---------------------------------------------------------------- completing CPU_ON

  predicate Matches(caller: Rec, target: Rec) {
    caller.realm == target.realm && caller.reqMpidr == target.mpidr
  }

  function Answered(caller: Rec, told: Told): (r: Rec) {
    caller.(pending := false, answered := caller.answered + 1, told := told)
  }

  // Requests that are neither answered nor pending.
  function Open(r: Rec): (n: int) {
    r.asked - r.answered - (if r.pending then 1 else 0)
  }

  // The second section of RMI_PSCI_COMPLETE, both RECs locked: what becomes of caller and target.
  function Complete(s: St, a: nat, t: nat, denied: bool): (r: map<nat, Rec>)
    requires a in s.rec && t in s.rec && a != t
    ensures r.Keys == s.rec.Keys
    ensures forall at :: at in r ==>
              && r[at].rc == s.rec[at].rc && r[at].realm == s.rec[at].realm && (r[at].pending ==> s.rec[at].pending)
              && Open(r[at]) == Open(s.rec[at]) && (s.rec[at].runnable ==> r[at].runnable)
  {
    var caller, target := s.rec[a], s.rec[t];
    if caller.rc != 0 || !caller.pending then s.rec
    else if !Matches(caller, target) then (if denied then s.rec[a := Answered(caller, Denied)] else s.rec)
    else if target.rc != 0 || target.runnable then s.rec[a := Answered(caller, AlreadyOn)]
    else if denied then s.rec[a := Answered(caller, Denied)]
    else s.rec[a := Answered(caller, SwitchedOn)][t := target.(runnable := true)]
  }

  // ---------------------------------------------------------------- steps

  datatype Act =
    // Realm and REC creation and destruction
    | RealmCreate(realm: nat)
    | RecCreate(at: nat, realm: nat, mpidr: nat, runnable: bool)
    | RecDestroy(at: nat)
    | RecUnlist(realm: nat, mpidr: nat)
    // RMI_REC_ENTER
    | Claim(pe: nat, at: nat)
    | ReadFail(pe: nat)
    | IncLoad(pe: nat)
    | IncCas(pe: nat)
    | CheckPending(pe: nat)
    | CheckFail(pe: nat)
    | Leave(pe: nat)
    | Decrement(pe: nat)
    | Release(pe: nat)
    // PSCI calls of the running REC
    | CpuOff(pe: nat)
    | CpuOn(pe: nat, mpidr: nat)
    | OffLock(pe: nat)
    | OffLoad(pe: nat)
    | OffCas(pe: nat)
    // RMI_REALM_ACTIVATE, RMI_REALM_TERMINATE
    | ActLock(pe: nat, realm: nat)
    | ActLoad(pe: nat)
    | ActCas(pe: nat)
    | TermLock(pe: nat, realm: nat)
    | TermLoad(pe: nat)
    | TermCas(pe: nat)
    // RMI_PSCI_COMPLETE
    | CompleteBegin(pe: nat, caller: nat, denied: bool)
    | CompleteEnd(pe: nat)
    | DenyEnd(pe: nat)

  predicate Listed(s: St, at: nat) {
    at in s.rec && (s.rec[at].realm, s.rec[at].mpidr) in s.where && s.where[(s.rec[at].realm, s.rec[at].mpidr)] == at
  }

  predicate Enabled(s: St, a: Act) {
    match a
    case RealmCreate(r) => r !in s.word
    case RecCreate(at, r, mpidr, runnable) =>
      at !in s.rec && r in s.word && StateOf(s.word[r]) == NEW && (r, mpidr) !in s.where
    case RecDestroy(at) => at in s.rec && s.rec[at].rc == 0
    case RecUnlist(r, mpidr) => (r, mpidr) in s.where && !(s.where[(r, mpidr)] in s.rec && Listed(s, s.where[(r, mpidr)]))
    case Claim(pe, at) => At(s, pe, Idle) && at in s.rec && s.rec[at].rc == 0 && s.rec[at].runnable
    case ReadFail(pe) => pe in s.pc && s.pc[pe].Claimed?
    case IncLoad(pe) => pe in s.pc && s.pc[pe].Claimed? && RealmKnown(s, s.pc[pe].rec)
    case IncCas(pe) => pe in s.pc && s.pc[pe].IncLoaded? && RealmKnown(s, s.pc[pe].rec)
    case CheckPending(pe) => pe in s.pc && s.pc[pe].Counted? && s.pc[pe].rec in s.rec
    case CheckFail(pe) => pe in s.pc && s.pc[pe].Counted?
    case Leave(pe) => pe in s.pc && s.pc[pe].Running?
    case Decrement(pe) => pe in s.pc && s.pc[pe].Exiting? && RealmKnown(s, s.pc[pe].rec) && s.word[s.rec[s.pc[pe].rec].realm] > 0
    case Release(pe) => pe in s.pc && s.pc[pe].Leaving? && s.pc[pe].rec in s.rec && s.rec[s.pc[pe].rec].rc > 0
    case CpuOff(pe) => pe in s.pc && s.pc[pe].Running? && s.pc[pe].rec in s.rec
    case CpuOn(pe, mpidr) =>
      && pe in s.pc && s.pc[pe].Running? && s.pc[pe].rec in s.rec
      && mpidr != s.rec[s.pc[pe].rec].mpidr && (s.rec[s.pc[pe].rec].realm, mpidr) in s.where
      && s.rec[s.pc[pe].rec].realm !in s.lock
    case OffLock(pe) => pe in s.pc && s.pc[pe].Running? && s.pc[pe].rec in s.rec && s.rec[s.pc[pe].rec].realm !in s.lock
    case OffLoad(pe) => pe in s.pc && s.pc[pe].OffLocked? && RealmKnown(s, s.pc[pe].rec)
    case OffCas(pe) => pe in s.pc && s.pc[pe].OffLoaded? && RealmKnown(s, s.pc[pe].rec)
    case ActLock(pe, r) => At(s, pe, Idle) && r in s.word && r !in s.lock && StateOf(s.word[r]) == NEW
    case ActLoad(pe) => pe in s.pc && s.pc[pe].ActLocked? && s.pc[pe].realm in s.word
    case ActCas(pe) => pe in s.pc && s.pc[pe].ActLoaded? && s.pc[pe].realm in s.word
    case TermLock(pe, r) => At(s, pe, Idle) && r in s.word && r !in s.lock
    case TermLoad(pe) => pe in s.pc && s.pc[pe].TermLocked? && s.pc[pe].realm in s.word
    case TermCas(pe) => pe in s.pc && s.pc[pe].TermLoaded? && s.pc[pe].realm in s.word
    case CompleteBegin(pe, c, denied) => At(s, pe, Idle) && c in s.rec && s.rec[c].rc == 0 && s.rec[c].pending
    case CompleteEnd(pe) => pe in s.pc && s.pc[pe].Completing?
    case DenyEnd(pe) => pe in s.pc && s.pc[pe].Denying?
  }

  predicate RealmKnown(s: St, at: nat) {
    at in s.rec && s.rec[at].realm in s.word
  }

  function Go(s: St, pe: nat, c: Pc): (r: St) {
    s.(pc := s.pc[pe := c])
  }

  function RealmOf(s: St, pe: nat): (r: nat)
    requires pe in s.pc && InRec(s.pc[pe]) && s.pc[pe].rec in s.rec
  {
    s.rec[s.pc[pe].rec].realm
  }

  function EnterStep(s: St, a: Act): (r: St)
    requires Enabled(s, a) && IsEnter(a)
  {
    match a
    case Claim(pe, at) => Go(s.(rec := s.rec[at := s.rec[at].(rc := 1)]), pe, Claimed(at))
    case ReadFail(pe) => Go(s, pe, Leaving(s.pc[pe].rec))
    case IncLoad(pe) =>
      var w := s.word[RealmOf(s, pe)];
      Go(s, pe, if StateOf(w) == ACTIVE then IncLoaded(s.pc[pe].rec, w) else Leaving(s.pc[pe].rec))
    case IncCas(pe) =>
      var r := RealmOf(s, pe);
      if s.word[r] == s.pc[pe].seen then
        Go(s.(word := s.word[r := s.pc[pe].seen + 1]), pe, Counted(s.pc[pe].rec))
      else Go(s, pe, Claimed(s.pc[pe].rec))
    case CheckPending(pe) =>
      Go(s, pe, if s.rec[s.pc[pe].rec].pending then Exiting(s.pc[pe].rec) else Running(s.pc[pe].rec))
    case CheckFail(pe) => Go(s, pe, Exiting(s.pc[pe].rec))
    case Leave(pe) => Go(s, pe, Exiting(s.pc[pe].rec))
    case Decrement(pe) =>
      var r := RealmOf(s, pe);
      Go(s.(word := s.word[r := s.word[r] - 1]), pe, Leaving(s.pc[pe].rec))
    case Release(pe) =>
      var at := s.pc[pe].rec;
      Go(s.(rec := s.rec[at := s.rec[at].(rc := s.rec[at].rc - 1)]), pe, Idle)
  }

  function PsciStep(s: St, a: Act): (r: St)
    requires Enabled(s, a) && IsPsci(a)
  {
    match a
    case CpuOff(pe) =>
      var at := s.pc[pe].rec;
      Go(s.(rec := s.rec[at := s.rec[at].(runnable := false)]), pe, Exiting(at))
    case CpuOn(pe, mpidr) =>
      var at := s.pc[pe].rec;
      Go(s.(rec := s.rec[at := s.rec[at].(pending := true, reqMpidr := mpidr, target := s.where[(s.rec[at].realm, mpidr)],
                                         asked := s.rec[at].asked + 1)]), pe, Exiting(at))
    case OffLock(pe) => Go(s.(lock := s.lock[RealmOf(s, pe) := pe]), pe, OffLocked(s.pc[pe].rec))
    case OffLoad(pe) => Go(s, pe, OffLoaded(s.pc[pe].rec, s.word[RealmOf(s, pe)]))
    case OffCas(pe) =>
      var r := RealmOf(s, pe);
      if s.word[r] == s.pc[pe].seen then
        Go(s.(word := s.word[r := Pack(SYSTEM_OFF, CountOf(s.pc[pe].seen))], lock := s.lock - {r}), pe, Exiting(s.pc[pe].rec))
      else Go(s, pe, OffLocked(s.pc[pe].rec))
  }

  function RealmStep(s: St, a: Act): (r: St)
    requires Enabled(s, a) && IsRealm(a)
  {
    match a
    case ActLock(pe, r) => Go(s.(lock := s.lock[r := pe]), pe, ActLocked(r))
    case ActLoad(pe) => Go(s, pe, ActLoaded(s.pc[pe].realm, s.word[s.pc[pe].realm]))
    case ActCas(pe) =>
      var r := s.pc[pe].realm;
      if s.word[r] == s.pc[pe].seen then
        Go(s.(word := s.word[r := Pack(ACTIVE, CountOf(s.pc[pe].seen))], lock := s.lock - {r}), pe, Idle)
      else Go(s, pe, ActLocked(r))
    case TermLock(pe, r) => Go(s.(lock := s.lock[r := pe]), pe, TermLocked(r))
    case TermLoad(pe) => Go(s, pe, TermLoaded(s.pc[pe].realm, StateOf(s.word[s.pc[pe].realm])))
    case TermCas(pe) =>
      var r := s.pc[pe].realm;
      var freed := s.(lock := s.lock - {r});
      Go(if s.word[r] == Pack(s.pc[pe].state, 0) then freed.(word := s.word[r := Pack(ZOMBIE, 0)]) else freed, pe, Idle)
  }

  function AdminStep(s: St, a: Act): (r: St)
    requires Enabled(s, a) && !IsEnter(a) && !IsPsci(a) && !IsRealm(a)
  {
    match a
    case RealmCreate(r) => s.(word := s.word[r := Pack(NEW, 0)])
    case RecCreate(at, r, mpidr, runnable) =>
      s.(rec := s.rec[at := Rec(r, mpidr, runnable, false, 0, 0, 0, 0, 0, Nothing)], where := s.where[(r, mpidr) := at])
    case RecDestroy(at) => s.(rec := s.rec - {at})
    case RecUnlist(r, mpidr) => s.(where := s.where - {(r, mpidr)})
    case CompleteBegin(pe, c, denied) => Go(s, pe, Completing(c, s.rec[c].target, denied))
    case CompleteEnd(pe) =>
      var c := s.pc[pe];
      // Locking both fails when either is gone and when they are the same; a denial then goes on without the target.
      if c.caller in s.rec && c.target in s.rec && c.caller != c.target then
        Go(s, pe, Idle).(rec := Complete(s, c.caller, c.target, c.denied))
      else Go(s, pe, if c.denied then Denying(c.caller) else Idle)
    case DenyEnd(pe) =>
      var c := s.pc[pe].caller;
      var answers := c in s.rec && s.rec[c].rc == 0 && s.rec[c].pending;
      Go(s, pe, Idle).(rec := if answers then s.rec[c := Answered(s.rec[c], Denied)] else s.rec)
  }

  predicate IsEnter(a: Act) {
    || a.Claim? || a.ReadFail? || a.IncLoad? || a.IncCas? || a.CheckPending? || a.CheckFail?
    || a.Leave? || a.Decrement? || a.Release?
  }

  predicate IsPsci(a: Act) {
    a.CpuOff? || a.CpuOn? || a.OffLock? || a.OffLoad? || a.OffCas?
  }

  predicate IsRealm(a: Act) {
    a.ActLock? || a.ActLoad? || a.ActCas? || a.TermLock? || a.TermLoad? || a.TermCas?
  }

  function Step(s: St, a: Act): (r: St)
    requires Enabled(s, a)
  {
    if IsEnter(a) then EnterStep(s, a)
    else if IsPsci(a) then PsciStep(s, a)
    else if IsRealm(a) then RealmStep(s, a)
    else AdminStep(s, a)
  }
}
