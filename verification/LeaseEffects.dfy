/** What any single step of the lease protocol can do, stated without naming the step.
    The invariants are preserved by everything that has these effects. */
module LeaseEffects {
  import opened Prelude
  import opened LeaseProtocol

  /** The map mentions allocated entries only, each at its own key. */
  ghost predicate MapShape(s: State) {
    forall k :: k in s.sessions ==> InRange(s, s.sessions[k]) && s.entries[s.sessions[k]].key == k
  }

  /** A sweep has only mapped entries before it, and is done with the key of the one it has looked at. */
  ghost predicate SweepOk(s: State, p: Pc) {
    p.Sweeping? ==>
      && p.todo <= s.sessions.Keys
      && (p.looked.Some? ==> Mapped(s, p.looked.value) && s.entries[p.looked.value].key !in p.todo)
  }

  /** The stages of a granted lease, until its lock is given back. */
  predicate Granted(stage: OwnStage) {
    stage.Leased? || stage.Releasing? || stage.DiscLock? || stage.DiscUnmap? || stage.DiscDestroy?
  }

  /** Only thread t moved, and the manager lock went where its new place says. */
  ghost predicate ThreadEffect(s: State, s': State, t: Tid) {
    && t in s.pc && t in s'.pc
    && s'.pc == s.pc[t := s'.pc[t]]
    && s'.manager == (if HoldsManager(s'.pc[t]) then Some(t) else if HoldsManager(s.pc[t]) then None else s.manager)
    && (HoldsManager(s'.pc[t]) && !HoldsManager(s.pc[t]) ==> s.manager == None)
  }

  /** Where thread t can have come from: a lease is granted after saving a new session or after
      confirming a mapped entry; a ready channel is closed by a saving or by a failed creator. */
  ghost predicate StageEffect(s: State, s': State, t: Tid)
    requires t in s.pc && t in s'.pc
  {
    var p, q := s.pc[t], s'.pc[t];
    && (q.Own? && Granted(q.stage) ==>
          || (p.Own? && p.e == q.e && (Granted(p.stage) || p.stage.Saving?))
          || (p.Confirm? && p.e == q.e && Mapped(s, q.e)))
    && (q.Own? && q.stage.Saving? && p != q ==> InRange(s', q.e) && s'.entries[q.e].hasSession)
    && (q.Own? && q.stage.FailUnlock? && p != q ==> !Mapped(s', q.e))
    && (q.FailReady? && p != q ==> p == Own(q.e, FailUnlock))
    && (forall e: Eid :: MustReady(p, e) && !MustReady(q, e) ==> p == Own(e, Saving) || p == FailReady(e))
  }

  /** How a call of Acquire goes round its loop. */
  ghost predicate CallEffect(s: State, s': State, t: Tid)
    requires t in s.pc && t in s'.pc
  {
    var p, q := s.pc[t], s'.pc[t];
    match q
    case Seek(call, _) =>
      || (p.Idle? && call.retried == [] && call.buriedAtStart == s.buried)
      || (p.Seek? && p.call == call)
      || (p.Confirm? && p.check.Stale? && call == p.call.(retried := p.call.retried + [p.e]))
      || p == q
    case Poll(call, e) =>
      || (p.Seek? && p.call == call && Mapped(s, e) && s.entries[e].key == call.key && s.entries[e].spec == call.spec)
      || p == q
    case Confirm(call, e, check) =>
      && ((p.Poll? && p.call == call && p.e == e) || (p.Confirm? && p.call == call && p.e == e))
      && (check.Stale? ==> p == q || (p.Confirm? && (call.key !in s.sessions || s.sessions[call.key] != e)))
    case _ => true
  }

  /** Keys, settings and creators never change, and locks move in and out of t's hands only. */
  ghost predicate LocksMoved(s: State, s': State, t: Tid)
    requires t in s.pc && t in s'.pc
  {
    var p, q, n := s.pc[t], s'.pc[t], |s.entries|;
    && n <= |s'.entries|
    && (forall e: Eid :: e < n ==>
          var x, x' := s.entries[e], s'.entries[e];
          && x'.key == x.key && x'.spec == x.spec && x'.creator == x.creator
          && x'.owner == (if Holds(q, e) then Some(t) else if Holds(p, e) then None else x.owner)
          && (Holds(q, e) && !Holds(p, e) ==> x.owner == None))
  }

  /** Sessions stay once they are there, and a ready channel is closed by the one who owes it. */
  ghost predicate SignalsGiven(s: State, s': State, t: Tid)
    requires t in s.pc && t in s'.pc
  {
    var p, q, n := s.pc[t], s'.pc[t], |s.entries|;
    && n <= |s'.entries|
    && (forall e: Eid :: e < n ==>
          var x, x' := s.entries[e], s'.entries[e];
          && (x.hasSession ==> x'.hasSession)
          && (x'.ready <==> x.ready || (MustReady(p, e) && !MustReady(q, e))))
    && (n == |s'.entries| ==> forall e: Eid :: MustReady(q, e) ==> MustReady(p, e))
  }

  /** At most one entry is new, and it belongs to t, which comes upon others only through the map. */
  ghost predicate EntriesFound(s: State, s': State, t: Tid)
    requires t in s.pc && t in s'.pc
  {
    var p, q, n := s.pc[t], s'.pc[t], |s.entries|;
    && n <= |s'.entries| <= n + 1
    && (n < |s'.entries| ==>
          && q == Own(n, Creating)
          && s'.entries[n].owner == Some(t) && s'.entries[n].creator == t
          && !s'.entries[n].ready)
    && (forall e: Eid :: Mentions(q, e) ==> Mentions(p, e) || Mapped(s, e) || (n == e < |s'.entries|))
  }

  ghost predicate EntryEffect(s: State, s': State, t: Tid)
    requires t in s.pc && t in s'.pc
  {
    LocksMoved(s, s', t) && SignalsGiven(s, s', t) && EntriesFound(s, s', t)
  }

  /** The map keeps its shape, gains only the new entry, and loses entries only to a thread that holds their lock, or
      to closeContext. */
  ghost predicate EntriesMapped(s: State, s': State, t: Tid)
    requires t in s.pc && t in s'.pc
  {
    var q, n := s'.pc[t], |s.entries|;
    && MapShape(s')
    && (forall e :: Mapped(s', e) && !Mapped(s, e) ==> e == n)
    && (n < |s'.entries| ==> Mapped(s', n))
    && (forall e :: Mapped(s, e) && !Mapped(s', e) ==> Holds(q, e) || e in s'.orphaned)
    && (forall e :: Claims(q, e) ==> Mapped(s', e) || (Claims(s.pc[t], e) && !Mapped(s, e)))
    && SweepOk(s', q)
  }

  /** What leaves the map is remembered, and leaves it at the hands of a holder of the manager lock. */
  ghost predicate EntriesBuried(s: State, s': State, t: Tid)
    requires t in s.pc && t in s'.pc
  {
    && (forall e :: e in s'.buried <==> e in s.buried || (Mapped(s, e) && !Mapped(s', e)))
    && s.orphaned <= s'.orphaned
    && (forall e :: e in s'.orphaned && e !in s.orphaned ==> Mapped(s, e) && !Mapped(s', e))
    && (forall k :: k in s.sessions && k !in s'.sessions ==> HoldsManager(s.pc[t]))
    && (forall e :: Mapped(s, e) && !Mapped(s', e) ==> HoldsManager(s.pc[t]))
  }

  ghost predicate MapEffect(s: State, s': State, t: Tid)
    requires t in s.pc && t in s'.pc
  {
    EntriesMapped(s, s', t) && EntriesBuried(s, s', t)
  }

  /** A key enters the map only when there was room for it. */
  ghost predicate CapacityEffect(lim: Limits, s: State, s': State) {
    || s'.sessions.Keys <= s.sessions.Keys
    || exists k :: k !in s.sessions && HasCapacity(lim, s.sessions, k) && s'.sessions.Keys == s.sessions.Keys + {k}
  }

  /** What a step does to the threads, and to the set of keys. */
  ghost predicate ThreadPart(lim: Limits, s: State, s': State, t: Tid) {
    ThreadEffect(s, s', t) && StageEffect(s, s', t) && CallEffect(s, s', t) && CapacityEffect(lim, s, s')
  }

  /** What a step does to the entries and their locks. */
  ghost predicate EntryPart(s: State, s': State, t: Tid) {
    t in s.pc && t in s'.pc && EntryEffect(s, s', t)
  }

  /** What a step does to the map. */
  ghost predicate MapPart(s: State, s': State, t: Tid) {
    t in s.pc && t in s'.pc && MapEffect(s, s', t)
  }

  /** What a step needs to know about the thread that takes it. */
  ghost predicate Ready(s: State, t: Tid) {
    && MapShape(s)
    && t in s.pc
    && Grounded(s, s.pc[t])
    && (forall e: Eid :: Holds(s.pc[t], e) ==> InRange(s, e) && s.entries[e].owner == Some(t))
    && (forall e: Eid :: MustReady(s.pc[t], e) ==> InRange(s, e) && !s.entries[e].ready)
    && (HoldsManager(s.pc[t]) ==> s.manager == Some(t))
    && SweepOk(s, s.pc[t])
  }

  lemma BeginThread(lim: Limits, s: State, t: Tid, b: BeginStep)
    requires Ready(s, t) && EnabledBegin(s.pc[t], b)
    ensures ThreadPart(lim, s, ApplyBegin(lim, s, t, b), t)
  {
  }

  lemma BeginEntry(lim: Limits, s: State, t: Tid, b: BeginStep)
    requires Ready(s, t) && EnabledBegin(s.pc[t], b)
    ensures EntryPart(s, ApplyBegin(lim, s, t, b), t)
  {
  }

  lemma BeginMap(lim: Limits, s: State, t: Tid, b: BeginStep)
    requires Ready(s, t) && EnabledBegin(s.pc[t], b)
    ensures MapPart(s, ApplyBegin(lim, s, t, b), t)
  {
  }

  lemma LockThread(lim: Limits, s: State, t: Tid)
    requires Ready(s, t) && WantsManager(s.pc[t]) && s.manager == None
    ensures ThreadPart(lim, s, ApplyLock(s, t), t)
  {
  }

  lemma LockEntry(lim: Limits, s: State, t: Tid)
    requires Ready(s, t) && WantsManager(s.pc[t]) && s.manager == None
    ensures EntryPart(s, ApplyLock(s, t), t)
  {
  }

  lemma LockMap(lim: Limits, s: State, t: Tid)
    requires Ready(s, t) && WantsManager(s.pc[t]) && s.manager == None
    ensures MapPart(s, ApplyLock(s, t), t)
  {
  }

  lemma DecideThread(lim: Limits, s: State, t: Tid)
    requires Ready(s, t) && EnabledAcquire(s, s.pc[t], Decide)
    ensures ThreadPart(lim, s, ApplyAcquire(lim, s, t, Decide), t)
  {
  }

  lemma DecideLocks(lim: Limits, s: State, t: Tid)
    requires Ready(s, t) && EnabledAcquire(s, s.pc[t], Decide)
    ensures var s' := ApplyAcquire(lim, s, t, Decide);
      t in s'.pc && LocksMoved(s, s', t)
  {
  }

  lemma DecideSignals(lim: Limits, s: State, t: Tid)
    requires Ready(s, t) && EnabledAcquire(s, s.pc[t], Decide)
    ensures var s' := ApplyAcquire(lim, s, t, Decide);
      t in s'.pc && SignalsGiven(s, s', t)
  {
  }

  lemma DecideFound(lim: Limits, s: State, t: Tid)
    requires Ready(s, t) && EnabledAcquire(s, s.pc[t], Decide)
    ensures var s' := ApplyAcquire(lim, s, t, Decide);
      t in s'.pc && EntriesFound(s, s', t)
  {
  }

  lemma DecideEntry(lim: Limits, s: State, t: Tid)
    requires Ready(s, t) && EnabledAcquire(s, s.pc[t], Decide)
    ensures EntryPart(s, ApplyAcquire(lim, s, t, Decide), t)
  {
    DecideLocks(lim, s, t);
    DecideSignals(lim, s, t);
    DecideFound(lim, s, t);
  }

  lemma DecideKept(lim: Limits, s: State, t: Tid)
    requires Ready(s, t) && EnabledAcquire(s, s.pc[t], Decide)
    ensures var s' := ApplyAcquire(lim, s, t, Decide);
      t in s'.pc && EntriesMapped(s, s', t)
  {
  }

  lemma DecideBuried(lim: Limits, s: State, t: Tid)
    requires Ready(s, t) && EnabledAcquire(s, s.pc[t], Decide)
    ensures var s' := ApplyAcquire(lim, s, t, Decide);
      t in s'.pc && EntriesBuried(s, s', t)
  {
  }

  lemma DecideMap(lim: Limits, s: State, t: Tid)
    requires Ready(s, t) && EnabledAcquire(s, s.pc[t], Decide)
    ensures MapPart(s, ApplyAcquire(lim, s, t, Decide), t)
  {
    DecideKept(lim, s, t);
    DecideBuried(lim, s, t);
  }

  lemma RecheckThread(lim: Limits, s: State, t: Tid)
    requires Ready(s, t) && EnabledAcquire(s, s.pc[t], Recheck)
    ensures ThreadPart(lim, s, ApplyAcquire(lim, s, t, Recheck), t)
  {
  }

  lemma RecheckLocks(lim: Limits, s: State, t: Tid)
    requires Ready(s, t) && EnabledAcquire(s, s.pc[t], Recheck)
    ensures var s' := ApplyAcquire(lim, s, t, Recheck);
      t in s'.pc && LocksMoved(s, s', t)
  {
  }

  lemma RecheckSignals(lim: Limits, s: State, t: Tid)
    requires Ready(s, t) && EnabledAcquire(s, s.pc[t], Recheck)
    ensures var s' := ApplyAcquire(lim, s, t, Recheck);
      t in s'.pc && SignalsGiven(s, s', t)
  {
  }

  lemma RecheckFound(lim: Limits, s: State, t: Tid)
    requires Ready(s, t) && EnabledAcquire(s, s.pc[t], Recheck)
    ensures var s' := ApplyAcquire(lim, s, t, Recheck);
      t in s'.pc && EntriesFound(s, s', t)
  {
  }

  lemma RecheckEntry(lim: Limits, s: State, t: Tid)
    requires Ready(s, t) && EnabledAcquire(s, s.pc[t], Recheck)
    ensures EntryPart(s, ApplyAcquire(lim, s, t, Recheck), t)
  {
    RecheckLocks(lim, s, t);
    RecheckSignals(lim, s, t);
    RecheckFound(lim, s, t);
  }

  lemma RecheckMap(lim: Limits, s: State, t: Tid)
    requires Ready(s, t) && EnabledAcquire(s, s.pc[t], Recheck)
    ensures MapPart(s, ApplyAcquire(lim, s, t, Recheck), t)
  {
  }

  lemma AcquireThread(lim: Limits, s: State, t: Tid, a: AcquireStep)
    requires Ready(s, t) && EnabledAcquire(s, s.pc[t], a) && !a.Decide? && !a.Recheck?
    ensures ThreadPart(lim, s, ApplyAcquire(lim, s, t, a), t)
  {
  }

  lemma AcquireEntry(lim: Limits, s: State, t: Tid, a: AcquireStep)
    requires Ready(s, t) && EnabledAcquire(s, s.pc[t], a) && !a.Decide? && !a.Recheck?
    ensures EntryPart(s, ApplyAcquire(lim, s, t, a), t)
  {
  }

  lemma AcquireMap(lim: Limits, s: State, t: Tid, a: AcquireStep)
    requires Ready(s, t) && EnabledAcquire(s, s.pc[t], a) && !a.Decide? && !a.Recheck?
    ensures MapPart(s, ApplyAcquire(lim, s, t, a), t)
  {
  }

  /** A failed creator takes its entry back. */
  predicate GivesUp(c: CreateStep) {
    c.FailUnmapStep? || c.FailUnlockStep? || c.FailReadyStep?
  }

  lemma GiveUpThread(lim: Limits, s: State, t: Tid, c: CreateStep)
    requires Ready(s, t) && EnabledCreate(s.pc[t], c) && GivesUp(c)
    ensures ThreadPart(lim, s, ApplyCreate(s, t, c), t)
  {
  }

  lemma CreateThread(lim: Limits, s: State, t: Tid, c: CreateStep)
    requires Ready(s, t) && EnabledCreate(s.pc[t], c) && !GivesUp(c)
    ensures ThreadPart(lim, s, ApplyCreate(s, t, c), t)
  {
  }

  lemma CreateEntry(lim: Limits, s: State, t: Tid, c: CreateStep)
    requires Ready(s, t) && EnabledCreate(s.pc[t], c) && !GivesUp(c)
    ensures EntryPart(s, ApplyCreate(s, t, c), t)
  {
  }

  lemma GiveUpLocks(lim: Limits, s: State, t: Tid, c: CreateStep)
    requires Ready(s, t) && EnabledCreate(s.pc[t], c) && GivesUp(c)
    ensures var s' := ApplyCreate(s, t, c);
      t in s'.pc && LocksMoved(s, s', t)
  {
  }

  lemma GiveUpSignals(lim: Limits, s: State, t: Tid, c: CreateStep)
    requires Ready(s, t) && EnabledCreate(s.pc[t], c) && GivesUp(c)
    ensures var s' := ApplyCreate(s, t, c);
      t in s'.pc && SignalsGiven(s, s', t)
  {
  }

  lemma GiveUpFound(lim: Limits, s: State, t: Tid, c: CreateStep)
    requires Ready(s, t) && EnabledCreate(s.pc[t], c) && GivesUp(c)
    ensures var s' := ApplyCreate(s, t, c);
      t in s'.pc && EntriesFound(s, s', t)
  {
  }

  lemma GiveUpEntry(lim: Limits, s: State, t: Tid, c: CreateStep)
    requires Ready(s, t) && EnabledCreate(s.pc[t], c) && GivesUp(c)
    ensures EntryPart(s, ApplyCreate(s, t, c), t)
  {
    GiveUpLocks(lim, s, t, c);
    GiveUpSignals(lim, s, t, c);
    GiveUpFound(lim, s, t, c);
  }

  lemma CreateMap(lim: Limits, s: State, t: Tid, c: CreateStep)
    requires Ready(s, t) && EnabledCreate(s.pc[t], c) && !GivesUp(c)
    ensures MapPart(s, ApplyCreate(s, t, c), t)
  {
  }

  lemma GiveUpKept(lim: Limits, s: State, t: Tid, c: CreateStep)
    requires Ready(s, t) && EnabledCreate(s.pc[t], c) && GivesUp(c)
    ensures var s' := ApplyCreate(s, t, c);
      t in s'.pc && EntriesMapped(s, s', t)
  {
  }

  lemma GiveUpBuried(lim: Limits, s: State, t: Tid, c: CreateStep)
    requires Ready(s, t) && EnabledCreate(s.pc[t], c) && GivesUp(c)
    ensures var s' := ApplyCreate(s, t, c);
      t in s'.pc && EntriesBuried(s, s', t)
  {
  }

  lemma GiveUpMap(lim: Limits, s: State, t: Tid, c: CreateStep)
    requires Ready(s, t) && EnabledCreate(s.pc[t], c) && GivesUp(c)
    ensures MapPart(s, ApplyCreate(s, t, c), t)
  {
    GiveUpKept(lim, s, t, c);
    GiveUpBuried(lim, s, t, c);
  }

  lemma FinishThread(lim: Limits, s: State, t: Tid, f: FinishStep)
    requires Ready(s, t) && EnabledFinish(s.pc[t], f)
    ensures ThreadPart(lim, s, ApplyFinish(s, t, f), t)
  {
  }

  lemma FinishEntry(lim: Limits, s: State, t: Tid, f: FinishStep)
    requires Ready(s, t) && EnabledFinish(s.pc[t], f) && !f.DiscardUnmap? && !f.BeginRelease?
    ensures EntryPart(s, ApplyFinish(s, t, f), t)
  {
  }

  lemma KeepLocks(lim: Limits, s: State, t: Tid, f: FinishStep)
    requires Ready(s, t) && EnabledFinish(s.pc[t], f) && (f.DiscardUnmap? || f.BeginRelease?)
    ensures var s' := ApplyFinish(s, t, f);
      t in s'.pc && LocksMoved(s, s', t)
  {
  }

  lemma KeepSignals(lim: Limits, s: State, t: Tid, f: FinishStep)
    requires Ready(s, t) && EnabledFinish(s.pc[t], f) && (f.DiscardUnmap? || f.BeginRelease?)
    ensures var s' := ApplyFinish(s, t, f);
      t in s'.pc && SignalsGiven(s, s', t)
  {
  }

  lemma KeepFound(lim: Limits, s: State, t: Tid, f: FinishStep)
    requires Ready(s, t) && EnabledFinish(s.pc[t], f) && (f.DiscardUnmap? || f.BeginRelease?)
    ensures var s' := ApplyFinish(s, t, f);
      t in s'.pc && EntriesFound(s, s', t)
  {
  }

  lemma KeepEntry(lim: Limits, s: State, t: Tid, f: FinishStep)
    requires Ready(s, t) && EnabledFinish(s.pc[t], f) && (f.DiscardUnmap? || f.BeginRelease?)
    ensures EntryPart(s, ApplyFinish(s, t, f), t)
  {
    KeepLocks(lim, s, t, f);
    KeepSignals(lim, s, t, f);
    KeepFound(lim, s, t, f);
  }

  lemma FinishKept(lim: Limits, s: State, t: Tid, f: FinishStep)
    requires Ready(s, t) && EnabledFinish(s.pc[t], f)
    ensures var s' := ApplyFinish(s, t, f);
      t in s'.pc && EntriesMapped(s, s', t)
  {
  }

  lemma FinishBuried(lim: Limits, s: State, t: Tid, f: FinishStep)
    requires Ready(s, t) && EnabledFinish(s.pc[t], f)
    ensures var s' := ApplyFinish(s, t, f);
      t in s'.pc && EntriesBuried(s, s', t)
  {
  }

  lemma FinishMap(lim: Limits, s: State, t: Tid, f: FinishStep)
    requires Ready(s, t) && EnabledFinish(s.pc[t], f)
    ensures MapPart(s, ApplyFinish(s, t, f), t)
  {
    FinishKept(lim, s, t, f);
    FinishBuried(lim, s, t, f);
  }

  lemma LookThread(lim: Limits, s: State, t: Tid, key: string)
    requires Ready(s, t) && EnabledSweep(s, s.pc[t], SweepLook(key))
    ensures ThreadPart(lim, s, ApplySweep(lim, s, t, SweepLook(key)), t)
  {
  }

  lemma LookEntry(lim: Limits, s: State, t: Tid, key: string)
    requires Ready(s, t) && EnabledSweep(s, s.pc[t], SweepLook(key))
    ensures EntryPart(s, ApplySweep(lim, s, t, SweepLook(key)), t)
  {
  }

  lemma LookMap(lim: Limits, s: State, t: Tid, key: string)
    requires Ready(s, t) && EnabledSweep(s, s.pc[t], SweepLook(key))
    ensures MapPart(s, ApplySweep(lim, s, t, SweepLook(key)), t)
  {
  }

  lemma TrySweepThread(lim: Limits, s: State, t: Tid)
    requires Ready(s, t) && EnabledSweep(s, s.pc[t], SweepTry)
    ensures ThreadPart(lim, s, ApplySweep(lim, s, t, SweepTry), t)
  {
  }

  lemma TrySweepLocks(lim: Limits, s: State, t: Tid)
    requires Ready(s, t) && EnabledSweep(s, s.pc[t], SweepTry)
    ensures var s' := ApplySweep(lim, s, t, SweepTry);
      t in s'.pc && LocksMoved(s, s', t)
  {
  }

  lemma TrySweepSignals(lim: Limits, s: State, t: Tid)
    requires Ready(s, t) && EnabledSweep(s, s.pc[t], SweepTry)
    ensures var s' := ApplySweep(lim, s, t, SweepTry);
      t in s'.pc && SignalsGiven(s, s', t)
  {
  }

  lemma TrySweepFound(lim: Limits, s: State, t: Tid)
    requires Ready(s, t) && EnabledSweep(s, s.pc[t], SweepTry)
    ensures var s' := ApplySweep(lim, s, t, SweepTry);
      t in s'.pc && EntriesFound(s, s', t)
  {
  }

  lemma TrySweepEntry(lim: Limits, s: State, t: Tid)
    requires Ready(s, t) && EnabledSweep(s, s.pc[t], SweepTry)
    ensures EntryPart(s, ApplySweep(lim, s, t, SweepTry), t)
  {
    TrySweepLocks(lim, s, t);
    TrySweepSignals(lim, s, t);
    TrySweepFound(lim, s, t);
  }

  lemma TrySweepMap(lim: Limits, s: State, t: Tid)
    requires Ready(s, t) && EnabledSweep(s, s.pc[t], SweepTry)
    ensures MapPart(s, ApplySweep(lim, s, t, SweepTry), t)
  {
  }

  lemma SweepThread(lim: Limits, s: State, t: Tid, w: SweepStep)
    requires Ready(s, t) && EnabledSweep(s, s.pc[t], w) && !w.SweepLook? && !w.SweepTry?
    ensures ThreadPart(lim, s, ApplySweep(lim, s, t, w), t)
  {
  }

  lemma SweepEntry(lim: Limits, s: State, t: Tid, w: SweepStep)
    requires Ready(s, t) && EnabledSweep(s, s.pc[t], w) && !w.SweepLook? && !w.SweepTry?
    ensures EntryPart(s, ApplySweep(lim, s, t, w), t)
  {
  }

  lemma SweepMap(lim: Limits, s: State, t: Tid, w: SweepStep)
    requires Ready(s, t) && EnabledSweep(s, s.pc[t], w) && !w.SweepLook? && !w.SweepTry?
    ensures MapPart(s, ApplySweep(lim, s, t, w), t)
  {
  }

  lemma CloseThread(lim: Limits, s: State, t: Tid, c: CloseStep)
    requires Ready(s, t) && EnabledClose(s, s.pc[t], c)
    ensures ThreadPart(lim, s, ApplyClose(s, t, c), t)
  {
  }

  lemma DrainEntry(lim: Limits, s: State, t: Tid, c: CloseStep)
    requires Ready(s, t) && EnabledClose(s, s.pc[t], c) && c.Drain?
    ensures EntryPart(s, ApplyClose(s, t, c), t)
  {
    assert forall e :: e in c.order ==> e in Elements(c.order);
  }

  lemma CloseLocks(lim: Limits, s: State, t: Tid, c: CloseStep)
    requires Ready(s, t) && EnabledClose(s, s.pc[t], c) && !c.Drain?
    ensures var s' := ApplyClose(s, t, c);
      t in s'.pc && LocksMoved(s, s', t)
  {
  }

  lemma CloseSignals(lim: Limits, s: State, t: Tid, c: CloseStep)
    requires Ready(s, t) && EnabledClose(s, s.pc[t], c) && !c.Drain?
    ensures var s' := ApplyClose(s, t, c);
      t in s'.pc && SignalsGiven(s, s', t)
  {
  }

  lemma CloseFound(lim: Limits, s: State, t: Tid, c: CloseStep)
    requires Ready(s, t) && EnabledClose(s, s.pc[t], c) && !c.Drain?
    ensures var s' := ApplyClose(s, t, c);
      t in s'.pc && EntriesFound(s, s', t)
  {
  }

  lemma CloseEntry(lim: Limits, s: State, t: Tid, c: CloseStep)
    requires Ready(s, t) && EnabledClose(s, s.pc[t], c) && !c.Drain?
    ensures EntryPart(s, ApplyClose(s, t, c), t)
  {
    CloseLocks(lim, s, t, c);
    CloseSignals(lim, s, t, c);
    CloseFound(lim, s, t, c);
  }

  lemma CloseMap(lim: Limits, s: State, t: Tid, c: CloseStep)
    requires Ready(s, t) && EnabledClose(s, s.pc[t], c)
    ensures MapPart(s, ApplyClose(s, t, c), t)
  {
  }

  lemma LookupThread(lim: Limits, s: State, t: Tid, l: LookupStep)
    requires Ready(s, t) && EnabledLookup(s, s.pc[t], l)
    ensures ThreadPart(lim, s, ApplyLookup(s, t, l), t)
  {
  }

  lemma LookupLocks(lim: Limits, s: State, t: Tid, l: LookupStep)
    requires Ready(s, t) && EnabledLookup(s, s.pc[t], l)
    ensures var s' := ApplyLookup(s, t, l);
      t in s'.pc && LocksMoved(s, s', t)
  {
  }

  lemma LookupSignals(lim: Limits, s: State, t: Tid, l: LookupStep)
    requires Ready(s, t) && EnabledLookup(s, s.pc[t], l)
    ensures var s' := ApplyLookup(s, t, l);
      t in s'.pc && SignalsGiven(s, s', t)
  {
  }

  lemma LookupFound(lim: Limits, s: State, t: Tid, l: LookupStep)
    requires Ready(s, t) && EnabledLookup(s, s.pc[t], l)
    ensures var s' := ApplyLookup(s, t, l);
      t in s'.pc && EntriesFound(s, s', t)
  {
  }

  lemma LookupEntry(lim: Limits, s: State, t: Tid, l: LookupStep)
    requires Ready(s, t) && EnabledLookup(s, s.pc[t], l)
    ensures EntryPart(s, ApplyLookup(s, t, l), t)
  {
    LookupLocks(lim, s, t, l);
    LookupSignals(lim, s, t, l);
    LookupFound(lim, s, t, l);
  }

  lemma LookupMap(lim: Limits, s: State, t: Tid, l: LookupStep)
    requires Ready(s, t) && EnabledLookup(s, s.pc[t], l)
    ensures MapPart(s, ApplyLookup(s, t, l), t)
  {
  }

  lemma TickEffect(lim: Limits, s: State, t: Tid, elapsed: nat)
    requires Ready(s, t)
    ensures var s' := s.(clock := s.clock + elapsed);
      ThreadPart(lim, s, s', t) && EntryPart(s, s', t) && MapPart(s, s', t)
  {
    assert s.pc[t := s.pc[t]] == s.pc;
  }

  ghost predicate Effect(lim: Limits, s: State, s': State, t: Tid) {
    ThreadPart(lim, s, s', t) && EntryPart(s, s', t) && MapPart(s, s', t)
  }

  lemma AcquireEffect(lim: Limits, s: State, t: Tid, a: AcquireStep)
    requires Ready(s, t) && EnabledAcquire(s, s.pc[t], a)
    ensures Effect(lim, s, ApplyAcquire(lim, s, t, a), t)
  {
    if a.Decide? {
      DecideThread(lim, s, t); DecideEntry(lim, s, t); DecideMap(lim, s, t);
    } else if a.Recheck? {
      RecheckThread(lim, s, t); RecheckEntry(lim, s, t); RecheckMap(lim, s, t);
    } else {
      AcquireThread(lim, s, t, a); AcquireEntry(lim, s, t, a); AcquireMap(lim, s, t, a);
    }
  }

  lemma CreateEffect(lim: Limits, s: State, t: Tid, c: CreateStep)
    requires Ready(s, t) && EnabledCreate(s.pc[t], c)
    ensures Effect(lim, s, ApplyCreate(s, t, c), t)
  {
    if GivesUp(c) {
      GiveUpThread(lim, s, t, c); GiveUpEntry(lim, s, t, c); GiveUpMap(lim, s, t, c);
    } else {
      CreateThread(lim, s, t, c); CreateEntry(lim, s, t, c); CreateMap(lim, s, t, c);
    }
  }

  lemma FinishEffect(lim: Limits, s: State, t: Tid, f: FinishStep)
    requires Ready(s, t) && EnabledFinish(s.pc[t], f)
    ensures Effect(lim, s, ApplyFinish(s, t, f), t)
  {
    FinishThread(lim, s, t, f); FinishMap(lim, s, t, f);
    if f.DiscardUnmap? || f.BeginRelease? {
      KeepEntry(lim, s, t, f);
    } else {
      FinishEntry(lim, s, t, f);
    }
  }

  lemma AnySweepEffect(lim: Limits, s: State, t: Tid, w: SweepStep)
    requires Ready(s, t) && EnabledSweep(s, s.pc[t], w)
    ensures Effect(lim, s, ApplySweep(lim, s, t, w), t)
  {
    if w.SweepLook? {
      LookThread(lim, s, t, w.key); LookEntry(lim, s, t, w.key); LookMap(lim, s, t, w.key);
    } else if w.SweepTry? {
      TrySweepThread(lim, s, t); TrySweepEntry(lim, s, t); TrySweepMap(lim, s, t);
    } else {
      SweepThread(lim, s, t, w); SweepEntry(lim, s, t, w); SweepMap(lim, s, t, w);
    }
  }

  lemma CloseEffect(lim: Limits, s: State, t: Tid, c: CloseStep)
    requires Ready(s, t) && EnabledClose(s, s.pc[t], c)
    ensures Effect(lim, s, ApplyClose(s, t, c), t)
  {
    CloseThread(lim, s, t, c); CloseMap(lim, s, t, c);
    if c.Drain? {
      DrainEntry(lim, s, t, c);
    } else {
      CloseEntry(lim, s, t, c);
    }
  }

  lemma BeginEffect(lim: Limits, s: State, t: Tid, b: BeginStep)
    requires Ready(s, t) && EnabledBegin(s.pc[t], b)
    ensures Effect(lim, s, ApplyBegin(lim, s, t, b), t)
  {
    BeginThread(lim, s, t, b); BeginEntry(lim, s, t, b); BeginMap(lim, s, t, b);
  }

  lemma LockEffect(lim: Limits, s: State, t: Tid)
    requires Ready(s, t) && WantsManager(s.pc[t]) && s.manager == None
    ensures Effect(lim, s, ApplyLock(s, t), t)
  {
    LockThread(lim, s, t); LockEntry(lim, s, t); LockMap(lim, s, t);
  }

  lemma LookupEffect(lim: Limits, s: State, t: Tid, l: LookupStep)
    requires Ready(s, t) && EnabledLookup(s, s.pc[t], l)
    ensures Effect(lim, s, ApplyLookup(s, t, l), t)
  {
    LookupThread(lim, s, t, l); LookupEntry(lim, s, t, l); LookupMap(lim, s, t, l);
  }

  lemma SearchEffect(lim: Limits, s: State, s': State, t: Tid, st: Step)
    requires Ready(s, t) && StepBy(lim, s, s', t, st)
    requires st.Begin? || st.LockManager? || st.Acquire? || st.Lookup? || st.Tick?
    ensures Effect(lim, s, s', t)
  {
    match st
    case Begin(b) => BeginEffect(lim, s, t, b);
    case LockManager => LockEffect(lim, s, t);
    case Acquire(a) => AcquireEffect(lim, s, t, a);
    case Lookup(l) => LookupEffect(lim, s, t, l);
    case Tick(elapsed) => TickEffect(lim, s, t, elapsed);
  }

  lemma WorkEffect(lim: Limits, s: State, s': State, t: Tid, st: Step)
    requires Ready(s, t) && StepBy(lim, s, s', t, st)
    requires st.Create? || st.Finish? || st.Sweep? || st.Close?
    ensures Effect(lim, s, s', t)
  {
    match st
    case Create(c) => CreateEffect(lim, s, t, c);
    case Finish(f) => FinishEffect(lim, s, t, f);
    case Sweep(w) => AnySweepEffect(lim, s, t, w);
    case Close(c) => CloseEffect(lim, s, t, c);
  }

  lemma StepEffect(lim: Limits, s: State, s': State, t: Tid, st: Step)
    requires Ready(s, t) && StepBy(lim, s, s', t, st)
    ensures Effect(lim, s, s', t)
  {
    if st.Create? || st.Finish? || st.Sweep? || st.Close? {
      WorkEffect(lim, s, s', t, st);
    } else {
      SearchEffect(lim, s, s', t, st);
    }
  }
}
