/** The inductive invariant of the lease protocol, one property at a time, and its preservation. */
module LeaseInvariant {
  import opened Prelude
  import opened LeaseProtocol
  import opened LeaseEffects
  import SessionKeys

  ghost predicate AllGrounded(s: State) {
    forall t :: t in s.pc ==> Grounded(s, s.pc[t])
  }

  /** The owner recorded in an entry lock is exactly the thread that stands where it must hold it. */
  ghost predicate LocksMatch(s: State) {
    forall t: Tid, e: Eid :: e < |s.entries| ==> (s.entries[e].owner == Some(t) <==> t in s.pc && Holds(s.pc[t], e))
  }

  ghost predicate ManagerMatches(s: State) {
    forall t :: s.manager == Some(t) <==> t in s.pc && HoldsManager(s.pc[t])
  }

  ghost predicate SweepsMapped(s: State) {
    forall t :: t in s.pc ==> SweepOk(s, s.pc[t])
  }

  /** The history sets: buried is what is not mapped, and closeContext only ever orphans what it buries. */
  ghost predicate History(s: State) {
    && (forall e: Eid :: e in s.buried <==> e < |s.entries| && !Mapped(s, e))
    && s.orphaned <= s.buried
  }

  /** Whoever relies on an entry being mapped is right, unless closeContext orphaned it. */
  ghost predicate ClaimsHold(s: State) {
    forall t, e :: t in s.pc && Claims(s.pc[t], e) ==> e in s.orphaned || Mapped(s, e)
  }

  /** Every thread that still has to close a ready channel is the creator of that entry, and every
      open channel has such a thread. */
  ghost predicate CreatorsPending(s: State) {
    && (forall t, e: Eid :: t in s.pc && MustReady(s.pc[t], e) ==>
          e < |s.entries| && s.entries[e].creator == t && !s.entries[e].ready)
    && (forall e: Eid :: e < |s.entries| && !s.entries[e].ready ==>
          s.entries[e].creator in s.pc && MustReady(s.pc[s.entries[e].creator], e))
  }

  /** Once the failing creator has taken its entry out of the map, the entry stays out. */
  ghost predicate FailedAreUnmapped(s: State) {
    forall t :: t in s.pc && (s.pc[t].FailReady? || (s.pc[t].Own? && s.pc[t].stage.FailUnlock?)) ==>
      !Mapped(s, s.pc[t].e)
  }

  /** A mapped entry with a closed ready channel has its session, and so has every lease. */
  ghost predicate ReadyHasSession(s: State) {
    && (forall e: Eid :: Mapped(s, e) && s.entries[e].ready ==> s.entries[e].hasSession)
    && (forall t :: t in s.pc && s.pc[t].Own? && (s.pc[t].stage.Saving? || Granted(s.pc[t].stage)) ==>
          InRange(s, s.pc[t].e) && s.entries[s.pc[t].e].hasSession)
  }

  /** The entries an Acquire gave back are distinct and were all buried while it ran. */
  ghost predicate CallOk(s: State, call: Call) {
    && NoDuplicates(call.retried)
    && (forall e :: e in call.retried ==> e in s.buried && e !in call.buriedAtStart)
    && call.buriedAtStart <= s.buried
  }

  ghost predicate Attempts(s: State, call: Call, e: Eid) {
    && CallOk(s, call) && e !in call.retried && e !in call.buriedAtStart
    && InRange(s, e) && s.entries[e].key == call.key && s.entries[e].spec == call.spec
  }

  ghost predicate CallInvariant(s: State, p: Pc) {
    match p
    case Seek(call, _) => CallOk(s, call)
    case Poll(call, e) => Attempts(s, call, e)
    case Confirm(call, e, check) => Attempts(s, call, e) && (check.Stale? ==> e in s.buried)
    case _ => true
  }

  ghost predicate CallsOk(s: State) {
    forall t :: t in s.pc ==> CallInvariant(s, s.pc[t])
  }

  ghost predicate WithinCapacity(lim: Limits, s: State) {
    && (lim.maxActive > 0 ==> |s.sessions| <= lim.maxActive)
    && (lim.maxPerNamespace > 0 ==> forall n :: |InNamespace(s.sessions, n)| <= lim.maxPerNamespace)
  }

  /** The invariant of every reachable state. */
  ghost predicate Inv(lim: Limits, s: State) {
    && MapShape(s) && AllGrounded(s) && LocksMatch(s) && ManagerMatches(s) && SweepsMapped(s)
    && History(s) && ClaimsHold(s) && CreatorsPending(s) && FailedAreUnmapped(s) && ReadyHasSession(s)
    && CallsOk(s) && WithinCapacity(lim, s)
  }

  // ---------- Each part is preserved by whatever has the effects of a step ----------

  lemma GroundedKept(s: State, s': State, t: Tid)
    requires AllGrounded(s) && ThreadEffect(s, s', t) && EntryEffect(s, s', t)
    ensures AllGrounded(s')
  {
    forall u | u in s'.pc ensures Grounded(s', s'.pc[u]) {
      assert u == t || s'.pc[u] == s.pc[u];
      assert Grounded(s, s.pc[t]);
    }
  }

  lemma LocksKept(s: State, s': State, t: Tid)
    requires AllGrounded(s) && LocksMatch(s) && ThreadEffect(s, s', t) && EntryEffect(s, s', t)
    ensures LocksMatch(s')
  {
    forall u: Tid, e: Eid | e < |s'.entries|
      ensures s'.entries[e].owner == Some(u) <==> u in s'.pc && Holds(s'.pc[u], e)
    {
      if e == |s.entries| && u in s.pc && u != t {
        assert Mentions(s.pc[u], e) ==> InRange(s, e);
      }
    }
  }

  lemma ManagerKept(s: State, s': State, t: Tid)
    requires ManagerMatches(s) && ThreadEffect(s, s', t)
    ensures ManagerMatches(s')
  {
  }

  lemma SweepsKept(s: State, s': State, t: Tid)
    requires SweepsMapped(s) && ManagerMatches(s)
    requires ThreadEffect(s, s', t) && EntryEffect(s, s', t) && MapEffect(s, s', t)
    ensures SweepsMapped(s')
  {
    forall u | u in s'.pc && s'.pc[u].Sweeping? ensures SweepOk(s', s'.pc[u]) {
      if u != t {
        assert SweepOk(s, s.pc[u]);
        assert HoldsManager(s.pc[u]);
        assert !HoldsManager(s.pc[t]);
      }
    }
  }

  lemma HistoryKept(s: State, s': State, t: Tid)
    requires History(s) && ThreadEffect(s, s', t) && EntryEffect(s, s', t) && MapEffect(s, s', t)
    ensures History(s')
    ensures s.buried <= s'.buried
  {
  }

  lemma ClaimsKept(s: State, s': State, t: Tid)
    requires AllGrounded(s) && LocksMatch(s) && ClaimsHold(s)
    requires ThreadEffect(s, s', t) && EntryEffect(s, s', t) && MapEffect(s, s', t)
    ensures ClaimsHold(s')
  {
    forall u, e | u in s'.pc && Claims(s'.pc[u], e) ensures e in s'.orphaned || Mapped(s', e) {
      if u != t {
        assert Holds(s.pc[u], e) && Mentions(s.pc[u], e);
        assert !Holds(s'.pc[t], e);
      }
    }
  }

  lemma CreatorsKept(s: State, s': State, t: Tid)
    requires AllGrounded(s) && CreatorsPending(s) && ThreadEffect(s, s', t) && EntryEffect(s, s', t)
    ensures CreatorsPending(s')
  {
    forall u, e: Eid | u in s'.pc && MustReady(s'.pc[u], e)
      ensures e < |s'.entries| && s'.entries[e].creator == u && !s'.entries[e].ready
    {
      if u != t {
        assert MustReady(s.pc[u], e) && Mentions(s.pc[u], e);
        assert s.entries[e].creator == u;
        assert !MustReady(s.pc[t], e);
        assert !s'.entries[e].ready;
      } else if |s'.entries| == |s.entries| {
        assert Mentions(s.pc[t], e) && Grounded(s, s.pc[t]);
        assert !s'.entries[e].ready;
      } else {
        assert e == |s.entries|;
      }
    }
  }

  lemma FailedKept(s: State, s': State, t: Tid)
    requires AllGrounded(s) && FailedAreUnmapped(s)
    requires ThreadEffect(s, s', t) && StageEffect(s, s', t) && EntryEffect(s, s', t) && MapEffect(s, s', t)
    ensures FailedAreUnmapped(s')
  {
    forall u | u in s'.pc && (s'.pc[u].FailReady? || (s'.pc[u].Own? && s'.pc[u].stage.FailUnlock?))
      ensures !Mapped(s', s'.pc[u].e)
    {
      var e := s'.pc[u].e;
      if u != t || s'.pc[u].FailReady? || s'.pc[u] == s.pc[u] {
        assert MustReady(s.pc[u], e) && Mentions(s.pc[u], e);
        assert !Mapped(s, e);
      }
    }
  }

  /** A thread that has the lock of a mapped entry it did not create finds the ready channel closed. */
  lemma ConfirmedIsReady(s: State, t: Tid)
    requires AllGrounded(s) && LocksMatch(s) && CreatorsPending(s) && FailedAreUnmapped(s)
    requires t in s.pc && s.pc[t].Confirm? && Mapped(s, s.pc[t].e)
    ensures s.entries[s.pc[t].e].ready
  {
    assert Holds(s.pc[t], s.pc[t].e);
  }

  lemma ReadyKept(s: State, s': State, t: Tid)
    requires AllGrounded(s) && LocksMatch(s) && CreatorsPending(s) && FailedAreUnmapped(s) && ReadyHasSession(s)
    requires ThreadEffect(s, s', t) && StageEffect(s, s', t) && EntryEffect(s, s', t) && MapEffect(s, s', t)
    ensures ReadyHasSession(s')
  {
    forall e: Eid | Mapped(s', e) && s'.entries[e].ready ensures s'.entries[e].hasSession {
      if e < |s.entries| {
        assert Mapped(s, e);
      }
    }
    forall u | u in s'.pc && s'.pc[u].Own? && (s'.pc[u].stage.Saving? || Granted(s'.pc[u].stage))
      ensures InRange(s', s'.pc[u].e) && s'.entries[s'.pc[u].e].hasSession
    {
      if u == t && s.pc[t].Confirm? && Mapped(s, s.pc[t].e) {
        ConfirmedIsReady(s, t);
      }
    }
  }

  lemma CallsKept(s: State, s': State, t: Tid)
    requires AllGrounded(s) && History(s) && History(s') && CallsOk(s) && s.buried <= s'.buried
    requires ThreadEffect(s, s', t) && CallEffect(s, s', t) && EntryEffect(s, s', t)
    ensures CallsOk(s')
  {
    forall u | u in s'.pc ensures CallInvariant(s', s'.pc[u]) {
      assert CallInvariant(s, s.pc[u]);
    }
  }

  lemma FewerKeysFit(small: map<string, Eid>, large: map<string, Eid>, n: string)
    requires small.Keys <= large.Keys
    ensures |small| <= |large| && |InNamespace(small, n)| <= |InNamespace(large, n)|
  {
    SubsetSize(small.Keys, large.Keys);
    SubsetSize(InNamespace(small, n), InNamespace(large, n));
  }

  lemma NewKeyFits(lim: Limits, before: map<string, Eid>, after: map<string, Eid>, k: string, n: string)
    requires k !in before && HasCapacity(lim, before, k) && after.Keys == before.Keys + {k}
    requires lim.maxPerNamespace > 0 ==> |InNamespace(before, n)| <= lim.maxPerNamespace
    ensures lim.maxActive > 0 ==> |after| <= lim.maxActive
    ensures lim.maxPerNamespace > 0 ==> |InNamespace(after, n)| <= lim.maxPerNamespace
  {
    assert |after.Keys| == |before.Keys| + 1;
    assert InNamespace(after, n) == InNamespace(before, n) + (if n == SessionKeys.SessionNamespace(k) then {k} else {});
  }

  lemma CapacityKept(lim: Limits, s: State, s': State)
    requires WithinCapacity(lim, s) && CapacityEffect(lim, s, s')
    ensures WithinCapacity(lim, s')
  {
    if s'.sessions.Keys <= s.sessions.Keys {
      FewerKeysFit(s'.sessions, s.sessions, "");
      forall n ensures |InNamespace(s'.sessions, n)| <= |InNamespace(s.sessions, n)| {
        FewerKeysFit(s'.sessions, s.sessions, n);
      }
    } else {
      var k :| k !in s.sessions && HasCapacity(lim, s.sessions, k) && s'.sessions.Keys == s.sessions.Keys + {k};
      NewKeyFits(lim, s.sessions, s'.sessions, k, "");
      if lim.maxPerNamespace > 0 {
        forall n ensures |InNamespace(s'.sessions, n)| <= lim.maxPerNamespace {
          NewKeyFits(lim, s.sessions, s'.sessions, k, n);
        }
      }
    }
  }

  lemma InvKept(lim: Limits, s: State, s': State, t: Tid)
    requires Inv(lim, s)
    requires Effect(lim, s, s', t)
    ensures Inv(lim, s') && s.buried <= s'.buried
  {
    GroundedKept(s, s', t);
    LocksKept(s, s', t);
    ManagerKept(s, s', t);
    SweepsKept(s, s', t);
    HistoryKept(s, s', t);
    ClaimsKept(s, s', t);
    CreatorsKept(s, s', t);
    FailedKept(s, s', t);
    ReadyKept(s, s', t);
    CallsKept(s, s', t);
    CapacityKept(lim, s, s');
  }

  lemma InvReady(lim: Limits, s: State, t: Tid)
    requires Inv(lim, s) && t in s.pc
    ensures Ready(s, t)
  {
    forall e: Eid | Holds(s.pc[t], e) ensures InRange(s, e) && s.entries[e].owner == Some(t) {
      assert Mentions(s.pc[t], e);
    }
  }
}
