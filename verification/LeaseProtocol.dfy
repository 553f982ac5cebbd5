/** The session manager as a step relation over any number of threads.

    A step is cut wherever the manager lock or an entry lock is taken or dropped, and where the sweep
    looks at the last use of an entry before it tries the lock. What a thread
    holds is never written down: it follows from where the thread stands (HoldsManager, Holds), and
    the owner recorded in each lock is proved to agree with that. Every entry ever allocated keeps
    its place in `entries`, so its index is a name that is never reused. */
module LeaseProtocol {
  import opened Prelude
  import opened SessionSpec
  import SessionKeys

  type Tid = nat
  type Eid = nat

  datatype Limits = Limits(ttl: int, maxActive: int, maxPerNamespace: int)

  /** `owner` is the holder of the entry lock; `creator` the thread that allocated the entry;
      `hasSession` says that the upstream session has been stored; `ready` that the channel is closed. */
  datatype Entry = Entry(key: string, spec: Spec, owner: Option<Tid>, creator: Tid,
                         hasSession: bool, ready: bool, lastUsed: int)

  /** One call of Acquire: `retried` lists the entries it gave back after the recheck,
      `buriedAtStart` the entries that were already unmapped when it began. */
  datatype Call = Call(key: string, spec: Spec, buriedAtStart: set<Eid>, retried: seq<Eid>)

  /** An acquirer that locked an existing entry and has yet to confirm that it is still mapped. */
  datatype ConfirmStage = WantRecheck | Rechecking | Stale

  /** Everything a thread does between getting an entry for itself and giving its lock back. */
  datatype OwnStage =
    | Creating | Saving                       // building the upstream session, writing the store record
    | FailLock | FailUnmap | FailUnlock       // cleanupEntry
    | Leased
    | Releasing                               // Release, after touching the entry
    | DiscLock | DiscUnmap | DiscDestroy      // Discard

  datatype Pc =
    | Idle
    | Seek(call: Call, deciding: bool)             // top of the Acquire loop; deciding: holds the manager lock
    | Poll(call: Call, e: Eid)                     // polls the entry lock
    | Confirm(call: Call, e: Eid, check: ConfirmStage)  // holds e
    | Own(e: Eid, stage: OwnStage)                 // holds e
    | FailReady(e: Eid)                            // about to close the ready channel of a failed entry
    | SweepLock(now: int)
    | Sweeping(now: int, todo: set<string>, looked: Option<Eid>, stale: set<Eid>)  // holds the manager lock and stale
    | SweepDestroy(stale: set<Eid>)                // holds stale
    | CloseLock
    | CloseDrain                                   // holds the manager lock
    | CloseWait(rest: seq<Eid>)                    // polls the lock of rest[0]
    | CloseDestroy(e: Eid, rest: seq<Eid>)         // holds e
    | LookLock(key: string)
    | LookRead(key: string)                        // holds the manager lock
    | LookWait(e: Eid)                             // waits for ready

  /** `buried` collects the entries that have been unmapped, `orphaned` those that closeContext unmapped. */
  datatype State = State(clock: int, manager: Option<Tid>, sessions: map<string, Eid>, entries: seq<Entry>,
                         buried: set<Eid>, orphaned: set<Eid>, pc: map<Tid, Pc>)

  // ---------- What a thread holds ----------

  predicate HoldsManager(p: Pc) {
    match p
    case Seek(_, deciding) => deciding
    case Confirm(_, _, check) => check.Rechecking?
    case Own(_, stage) => stage.FailUnmap? || stage.DiscUnmap?
    case _ => p.Sweeping? || p.CloseDrain? || p.LookRead?
  }

  predicate WantsManager(p: Pc) {
    match p
    case Seek(_, deciding) => !deciding
    case Confirm(_, _, check) => check.WantRecheck?
    case Own(_, stage) => stage.FailLock? || stage.DiscLock?
    case _ => p.SweepLock? || p.CloseLock? || p.LookLock?
  }

  /** Thread state p has the lock of entry e. */
  predicate Holds(p: Pc, e: Eid) {
    match p
    case Confirm(_, x, _) => x == e
    case Own(x, _) => x == e
    case Sweeping(_, _, _, stale) => e in stale
    case SweepDestroy(stale) => e in stale
    case CloseDestroy(x, _) => x == e
    case _ => false
  }

  /** Thread state p relies on e being the entry mapped at its key. */
  predicate Claims(p: Pc, e: Eid) {
    p.Own? && p.e == e && !p.stage.FailUnlock? && !p.stage.DiscDestroy?
  }

  /** Thread state p still has to close the ready channel of e. */
  predicate MustReady(p: Pc, e: Eid) {
    || (p.Own? && p.e == e
         && (p.stage.Creating? || p.stage.Saving? || p.stage.FailLock? || p.stage.FailUnmap? || p.stage.FailUnlock?))
    || (p.FailReady? && p.e == e)
  }

  /** Thread state p refers to e without holding it. */
  predicate Awaits(p: Pc, e: Eid) {
    match p
    case Poll(_, x) => x == e
    case Sweeping(_, _, looked, _) => looked == Some(e)
    case CloseWait(rest) => e in rest
    case CloseDestroy(_, rest) => e in rest
    case LookWait(x) => x == e
    case _ => false
  }

  predicate InRange(s: State, e: Eid) {
    e < |s.entries|
  }

  predicate Mentions(p: Pc, e: Eid) {
    Holds(p, e) || MustReady(p, e) || Awaits(p, e)
  }

  /** A thread state mentions allocated entries only. */
  ghost predicate Grounded(s: State, p: Pc) {
    forall e :: Mentions(p, e) ==> InRange(s, e)
  }

  // ---------- Capacity ----------

  function InNamespace(sessions: map<string, Eid>, namespace: string): set<string> {
    set k | k in sessions && SessionKeys.SessionNamespace(k) == namespace
  }

  predicate HasCapacity(lim: Limits, sessions: map<string, Eid>, key: string) {
    && (lim.maxActive > 0 ==> |sessions| < lim.maxActive)
    && (lim.maxPerNamespace > 0 ==>
        |InNamespace(sessions, SessionKeys.SessionNamespace(key))| < lim.maxPerNamespace)
  }

  // ---------- Steps ----------

  datatype BeginStep = BeginAcquire(key: string, spec: Spec) | BeginSweep | BeginClose | BeginLookup(key: string)

  datatype AcquireStep = Decide | TryEntry | ContextEnds | Recheck | UnlockStale

  datatype CreateStep =
    | CreateFails | CreateSucceeds | SaveFails | SaveSucceeds | FailUnmapStep | FailUnlockStep | FailReadyStep

  datatype FinishStep = BeginRelease | ReleaseUnlock | BeginDiscard | DiscardUnmap | DiscardUnlock

  datatype SweepStep = SweepLook(key: string) | SweepTry | SweepEnd | SweepUnlock(e: Eid) | SweepReturn

  /** Drain lists the entries it unmaps in some order, the order in which it then locks them. */
  datatype CloseStep = Drain(order: seq<Eid>) | CloseTake | CloseSkip | CloseUnlock | CloseReturn

  datatype LookupStep = LookupRead | LookupReturn

  datatype Step =
    | Begin(begin: BeginStep)
    | LockManager
    | Acquire(acquire: AcquireStep)
    | Create(create: CreateStep)
    | Finish(finish: FinishStep)
    | Sweep(sweep: SweepStep)
    | Close(close: CloseStep)
    | Lookup(lookup: LookupStep)
    | Tick(elapsed: nat)

  predicate Free(s: State, e: Eid) {
    InRange(s, e) && s.entries[e].owner == None
  }

  predicate EnabledBegin(p: Pc, b: BeginStep) {
    p.Idle? && (b.BeginAcquire? ==> b.key != "")
  }

  predicate EnabledAcquire(s: State, p: Pc, a: AcquireStep) {
    match a
    case Decide => p.Seek? && p.deciding
    case TryEntry => p.Poll? && Free(s, p.e)
    case ContextEnds => p.Poll?
    case Recheck => p.Confirm? && p.check.Rechecking?
    case UnlockStale => p.Confirm? && p.check.Stale?
  }

  predicate EnabledCreate(p: Pc, c: CreateStep) {
    match c
    case CreateFails => p.Own? && p.stage.Creating?
    case CreateSucceeds => p.Own? && p.stage.Creating?
    case SaveFails => p.Own? && p.stage.Saving?
    case SaveSucceeds => p.Own? && p.stage.Saving?
    case FailUnmapStep => p.Own? && p.stage.FailUnmap?
    case FailUnlockStep => p.Own? && p.stage.FailUnlock?
    case FailReadyStep => p.FailReady?
  }

  predicate EnabledFinish(p: Pc, f: FinishStep) {
    p.Own? &&
    match f
    case BeginRelease => p.stage.Leased?
    case ReleaseUnlock => p.stage.Releasing?
    case BeginDiscard => p.stage.Leased?
    case DiscardUnmap => p.stage.DiscUnmap?
    case DiscardUnlock => p.stage.DiscDestroy?
  }

  predicate EnabledSweep(s: State, p: Pc, w: SweepStep) {
    match w
    case SweepLook(key) =>
      p.Sweeping? && p.looked == None && key in p.todo && key in s.sessions && InRange(s, s.sessions[key])
    case SweepTry => p.Sweeping? && p.looked.Some? && InRange(s, p.looked.value)
    case SweepEnd => p.Sweeping? && p.looked == None && p.todo == {}
    case SweepUnlock(e) => p.SweepDestroy? && e in p.stale
    case SweepReturn => p.SweepDestroy? && p.stale == {}
  }

  predicate EnabledClose(s: State, p: Pc, c: CloseStep) {
    match c
    case Drain(order) => p.CloseDrain? && Elements(order) == s.sessions.Values
    case CloseTake => p.CloseWait? && p.rest != [] && Free(s, p.rest[0])
    case CloseSkip => p.CloseWait? && p.rest != []
    case CloseUnlock => p.CloseDestroy?
    case CloseReturn => p.CloseWait? && p.rest == []
  }

  predicate EnabledLookup(s: State, p: Pc, l: LookupStep) {
    match l
    case LookupRead => p.LookRead?
    case LookupReturn => p.LookWait? && InRange(s, p.e) && s.entries[p.e].ready
  }

  predicate Enabled(s: State, t: Tid, st: Step)
    requires t in s.pc
  {
    var p := s.pc[t];
    match st
    case Begin(b) => EnabledBegin(p, b)
    case LockManager => WantsManager(p) && s.manager == None
    case Acquire(a) => EnabledAcquire(s, p, a)
    case Create(c) => EnabledCreate(p, c)
    case Finish(f) => EnabledFinish(p, f)
    case Sweep(w) => EnabledSweep(s, p, w)
    case Close(c) => EnabledClose(s, p, c)
    case Lookup(l) => EnabledLookup(s, p, l)
    case Tick(_) => true
  }

  // ---------- Elementary effects ----------

  function Goto(s: State, t: Tid, p: Pc): State {
    s.(pc := s.pc[t := p])
  }

  function AfterManager(p: Pc, sessions: map<string, Eid>): Pc
    requires WantsManager(p)
  {
    match p
    case Seek(call, _) => Seek(call, true)
    case Confirm(call, e, _) => Confirm(call, e, Rechecking)
    case Own(e, stage) => Own(e, if stage.FailLock? then FailUnmap else DiscUnmap)
    case SweepLock(now) => Sweeping(now, sessions.Keys, None, {})
    case CloseLock => CloseDrain
    case LookLock(key) => LookRead(key)
  }

  // Every entry a thread mentions is allocated (Grounded is invariant), so the guards below always hold.

  function SetOwner(s: State, e: Eid, owner: Option<Tid>): State {
    if InRange(s, e) then s.(entries := s.entries[e := s.entries[e].(owner := owner)]) else s
  }

  function Touch(s: State, e: Eid): State {
    if InRange(s, e) then s.(entries := s.entries[e := s.entries[e].(lastUsed := s.clock)]) else s
  }

  function StoreSession(s: State, e: Eid): State {
    if InRange(s, e) then s.(entries := s.entries[e := s.entries[e].(hasSession := true)]) else s
  }

  function CloseReady(s: State, e: Eid): State {
    if InRange(s, e) then s.(entries := s.entries[e := s.entries[e].(ready := true)]) else s
  }

  predicate Mapped(s: State, e: Eid) {
    e < |s.entries| && s.entries[e].key in s.sessions && s.sessions[s.entries[e].key] == e
  }

  /** Deletes e from the map, provided e is still the entry mapped at its key. */
  function Unmap(s: State, e: Eid): State {
    if Mapped(s, e) then s.(sessions := s.sessions - {s.entries[e].key}, buried := s.buried + {e}) else s
  }

  function DropManager(s: State): State {
    s.(manager := None)
  }

  function Install(s: State, t: Tid, call: Call): State {
    var e := |s.entries|;
    var entry := Entry(call.key, call.spec, Some(t), t, false, false, 0);
    Goto(s.(sessions := s.sessions[call.key := e], entries := s.entries + [entry]), t, Own(e, Creating))
  }

  function DecideStep(lim: Limits, s: State, t: Tid, call: Call): State {
    if call.key in s.sessions then
      var e := s.sessions[call.key];
      if e < |s.entries| && s.entries[e].spec == call.spec
      then DropManager(Goto(s, t, Poll(call, e)))
      else DropManager(Goto(s, t, Idle))
    else if HasCapacity(lim, s.sessions, call.key) then DropManager(Install(s, t, call))
    else DropManager(Goto(s, t, Idle))
  }

  function RecheckStep(s: State, t: Tid, call: Call, e: Eid): State {
    if call.key in s.sessions && s.sessions[call.key] == e
    then DropManager(Goto(Touch(s, e), t, Own(e, Leased)))
    else DropManager(Goto(s, t, Confirm(call, e, Stale)))
  }

  /** Looks at the last use of an entry; one that is not stale is passed over. */
  function SweepLookStep(lim: Limits, s: State, t: Tid, key: string): State
    requires t in s.pc && s.pc[t].Sweeping? && key in s.sessions && InRange(s, s.sessions[key])
  {
    var Sweeping(now, todo, _, stale) := s.pc[t];
    var e := s.sessions[key];
    Goto(s, t, Sweeping(now, todo - {key}, if now - s.entries[e].lastUsed < lim.ttl then None else Some(e), stale))
  }

  /** Tries the lock of the entry that looked stale: takes the entry out of the map, or passes over it. */
  function SweepTryStep(s: State, t: Tid): State
    requires t in s.pc && s.pc[t].Sweeping? && s.pc[t].looked.Some? && InRange(s, s.pc[t].looked.value)
  {
    var Sweeping(now, todo, looked, stale) := s.pc[t];
    var e := looked.value;
    if s.entries[e].owner != None then Goto(s, t, Sweeping(now, todo, None, stale))
    else Goto(SetOwner(Unmap(s, e), e, Some(t)), t, Sweeping(now, todo, None, stale + {e}))
  }

  function ApplyBegin(lim: Limits, s: State, t: Tid, b: BeginStep): State {
    match b
    case BeginAcquire(key, spec) => Goto(s, t, Seek(Call(key, spec, s.buried, []), false))
    case BeginSweep => if lim.ttl <= 0 then s else Goto(s, t, SweepLock(s.clock))
    case BeginClose => Goto(s, t, CloseLock)
    case BeginLookup(key) => if key == "" then s else Goto(s, t, LookLock(key))
  }

  function ApplyLock(s: State, t: Tid): State
    requires t in s.pc && WantsManager(s.pc[t])
  {
    Goto(s.(manager := Some(t)), t, AfterManager(s.pc[t], s.sessions))
  }

  function ApplyAcquire(lim: Limits, s: State, t: Tid, a: AcquireStep): State
    requires t in s.pc && EnabledAcquire(s, s.pc[t], a)
  {
    var p := s.pc[t];
    match a
    case Decide => DecideStep(lim, s, t, p.call)
    case TryEntry => Goto(SetOwner(s, p.e, Some(t)), t, Confirm(p.call, p.e, WantRecheck))
    case ContextEnds => Goto(s, t, Idle)
    case Recheck => RecheckStep(s, t, p.call, p.e)
    case UnlockStale =>
      Goto(SetOwner(s, p.e, None), t, Seek(p.call.(retried := p.call.retried + [p.e]), false))
  }

  function ApplyCreate(s: State, t: Tid, c: CreateStep): State
    requires t in s.pc && EnabledCreate(s.pc[t], c)
  {
    var e := s.pc[t].e;
    match c
    case CreateFails => Goto(s, t, Own(e, FailLock))
    case CreateSucceeds => Goto(Touch(StoreSession(s, e), e), t, Own(e, Saving))
    case SaveFails => Goto(s, t, Own(e, FailLock))
    case SaveSucceeds => Goto(CloseReady(s, e), t, Own(e, Leased))
    case FailUnmapStep => DropManager(Goto(Unmap(s, e), t, Own(e, FailUnlock)))
    case FailUnlockStep => Goto(SetOwner(s, e, None), t, FailReady(e))
    case FailReadyStep => Goto(CloseReady(s, e), t, Idle)
  }

  function ApplyFinish(s: State, t: Tid, f: FinishStep): State
    requires t in s.pc && EnabledFinish(s.pc[t], f)
  {
    var e := s.pc[t].e;
    match f
    case BeginRelease => Goto(Touch(s, e), t, Own(e, Releasing))
    case ReleaseUnlock => Goto(SetOwner(s, e, None), t, Idle)
    case BeginDiscard => Goto(s, t, Own(e, DiscLock))
    case DiscardUnmap => DropManager(Goto(Unmap(s, e), t, Own(e, DiscDestroy)))
    case DiscardUnlock => Goto(SetOwner(s, e, None), t, Idle)
  }

  function ApplySweep(lim: Limits, s: State, t: Tid, w: SweepStep): State
    requires t in s.pc && EnabledSweep(s, s.pc[t], w)
  {
    var p := s.pc[t];
    match w
    case SweepLook(key) => SweepLookStep(lim, s, t, key)
    case SweepTry => SweepTryStep(s, t)
    case SweepEnd => DropManager(Goto(s, t, SweepDestroy(p.stale)))
    case SweepUnlock(e) => Goto(SetOwner(s, e, None), t, SweepDestroy(p.stale - {e}))
    case SweepReturn => Goto(s, t, Idle)
  }

  function ApplyClose(s: State, t: Tid, c: CloseStep): State
    requires t in s.pc && EnabledClose(s, s.pc[t], c)
  {
    var p := s.pc[t];
    match c
    case Drain(order) =>
      DropManager(Goto(s.(sessions := map[], buried := s.buried + s.sessions.Values,
                          orphaned := s.orphaned + s.sessions.Values), t, CloseWait(order)))
    case CloseTake => Goto(SetOwner(s, p.rest[0], Some(t)), t, CloseDestroy(p.rest[0], p.rest[1..]))
    case CloseSkip => Goto(s, t, CloseWait(p.rest[1..]))
    case CloseUnlock => Goto(SetOwner(s, p.e, None), t, CloseWait(p.rest))
    case CloseReturn => Goto(s, t, Idle)
  }

  function ApplyLookup(s: State, t: Tid, l: LookupStep): State
    requires t in s.pc && EnabledLookup(s, s.pc[t], l)
  {
    var p := s.pc[t];
    match l
    case LookupRead => DropManager(Goto(s, t, if p.key in s.sessions then LookWait(s.sessions[p.key]) else Idle))
    case LookupReturn => Goto(s, t, Idle)
  }

  function Apply(lim: Limits, s: State, t: Tid, st: Step): State
    requires t in s.pc
    requires Enabled(s, t, st)
  {
    match st
    case Begin(b) => ApplyBegin(lim, s, t, b)
    case LockManager => ApplyLock(s, t)
    case Acquire(a) => ApplyAcquire(lim, s, t, a)
    case Create(c) => ApplyCreate(s, t, c)
    case Finish(f) => ApplyFinish(s, t, f)
    case Sweep(w) => ApplySweep(lim, s, t, w)
    case Close(c) => ApplyClose(s, t, c)
    case Lookup(l) => ApplyLookup(s, t, l)
    case Tick(elapsed) => s.(clock := s.clock + elapsed)
  }

  // ---------- Runs ----------

  ghost predicate Init(s: State) {
    && s.manager == None && s.sessions == map[] && s.entries == [] && s.buried == {} && s.orphaned == {}
    && forall t :: t in s.pc ==> s.pc[t].Idle?
  }

  ghost predicate StepBy(lim: Limits, s: State, s': State, t: Tid, st: Step) {
    && t in s.pc && Enabled(s, t, st) && s' == Apply(lim, s, t, st)
  }

  ghost predicate Next(lim: Limits, s: State, s': State) {
    exists t, st :: StepBy(lim, s, s', t, st)
  }

  ghost predicate Linked(lim: Limits, run: seq<State>, i: nat)
    requires i + 1 < |run|
  {
    Next(lim, run[i], run[i + 1])
  }

  ghost predicate IsRun(lim: Limits, run: seq<State>) {
    && run != [] && Init(run[0])
    && forall i: nat :: i + 1 < |run| ==> Linked(lim, run, i)
  }
}
