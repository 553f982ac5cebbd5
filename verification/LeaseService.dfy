/** What the lease protocol does for a thread that nobody gets in the way of: from any state in which it can begin, the
    calls of the session manager go through, and change exactly what they are for. */
module LeaseService {
  import opened Prelude
  import opened SessionSpec
  import opened LeaseProtocol
  import opened LeaseInvariant
  import SessionKeys

  /** Where the steps of thread t lead, if each is enabled when its turn comes. */
  function Alone(lim: Limits, s: State, t: Tid, steps: seq<Step>): Option<State> {
    if steps == [] then Some(s)
    else
      var before := Alone(lim, s, t, steps[..|steps| - 1]);
      if before.Some? && t in before.value.pc && Enabled(before.value, t, steps[|steps| - 1])
      then Some(Apply(lim, before.value, t, steps[|steps| - 1])) else None
  }

  lemma {:induction false} Then(lim: Limits, s: State, t: Tid, before: seq<Step>, st: Step, mid: State)
    requires Alone(lim, s, t, before) == Some(mid) && t in mid.pc && Enabled(mid, t, st)
    ensures Alone(lim, s, t, before + [st]) == Some(Apply(lim, mid, t, st))
  {
    assert (before + [st])[..|before|] == before;
  }

  lemma {:induction false} First(lim: Limits, s: State, t: Tid, st: Step)
    requires t in s.pc && Enabled(s, t, st)
    ensures Alone(lim, s, t, [st]) == Some(Apply(lim, s, t, st))
  {
    assert [st][..0] == [];
  }

  /** What follows on what. */
  lemma {:induction false} AloneJoin(lim: Limits, s: State, t: Tid, a: seq<Step>, b: seq<Step>)
    requires Alone(lim, s, t, a).Some?
    ensures Alone(lim, s, t, a + b) == Alone(lim, Alone(lim, s, t, a).value, t, b)
  {
    if b == [] {
      assert a + b == a;
    } else {
      assert (a + b)[..|a + b| - 1] == a + b[..|b| - 1];
      AloneJoin(lim, s, t, a, b[..|b| - 1]);
    }
  }

  lemma GotoTwice(s: State, t: Tid, p: Pc, q: Pc)
    ensures Goto(Goto(s, t, p), t, q) == Goto(s, t, q)
  {
  }

  /** The thread can begin, and the manager lock is free. */
  predicate Ready(s: State, t: Tid) {
    t in s.pc && s.pc[t].Idle? && s.manager == None
  }

  // ---------- Acquire ----------

  function Asking(s: State, key: string, spec: Spec): Call {
    Call(key, spec, s.buried, [])
  }

  function Ask(key: string, spec: Spec): seq<Step> {
    [Begin(BeginAcquire(key, spec))] + [LockManager]
  }

  lemma {:induction false} Asked(lim: Limits, s: State, t: Tid, key: string, spec: Spec)
    requires Ready(s, t) && key != ""
    ensures Alone(lim, s, t, Ask(key, spec))
      == Some(Goto(s, t, Seek(Asking(s, key, spec), true)).(manager := Some(t)))
  {
    First(lim, s, t, Begin(BeginAcquire(key, spec)));
    var begun := Goto(s, t, Seek(Asking(s, key, spec), false));
    Then(lim, s, t, [Begin(BeginAcquire(key, spec))], LockManager, begun);
    GotoTwice(s, t, Seek(Asking(s, key, spec), false), Seek(Asking(s, key, spec), true));
  }

  function OfNamespace(s: State, namespace: string): set<string> {
    set k | k in s.sessions && SessionKeys.SessionNamespace(k) == namespace
  }

  /** There is room for one more session at the key. */
  predicate Room(lim: Limits, s: State, key: string) {
    && (lim.maxActive <= 0 || |s.sessions| < lim.maxActive)
    && (lim.maxPerNamespace <= 0 || |OfNamespace(s, SessionKeys.SessionNamespace(key))| < lim.maxPerNamespace)
  }

  lemma RoomIsCapacity(lim: Limits, s: State, key: string)
    ensures Room(lim, s, key) <==> HasCapacity(lim, s.sessions, key)
  {
    var namespace := SessionKeys.SessionNamespace(key);
    assert OfNamespace(s, namespace) == LeaseProtocol.InNamespace(s.sessions, namespace);
  }

  /** A request for other settings, or for one session more than there is room for, is over at once; nothing has
      changed. */
  lemma {:induction false} RefusedAlone(lim: Limits, s: State, t: Tid, key: string, spec: Spec)
    requires Inv(lim, s) && Ready(s, t) && key != ""
    requires if key in s.sessions then s.entries[s.sessions[key]].spec != spec else !Room(lim, s, key)
    ensures Alone(lim, s, t, Ask(key, spec) + [Acquire(Decide)]) == Some(s)
  {
    Asked(lim, s, t, key, spec);
    RoomIsCapacity(lim, s, key);
    var asked := Goto(s, t, Seek(Asking(s, key, spec), true)).(manager := Some(t));
    Then(lim, s, t, Ask(key, spec), Acquire(Decide), asked);
    GotoTwice(s, t, Seek(Asking(s, key, spec), true), Idle);
    assert Goto(s, t, Idle) == s by { assert s.pc[t := Idle] == s.pc; }
  }

  /** State s with another entry at place e. */
  function With(s: State, e: Eid, entry: Entry): State
    requires e < |s.entries|
  {
    s.(entries := s.entries[e := entry])
  }

  lemma WithTwice(s: State, e: Eid, entry: Entry, entry': Entry)
    requires e < |s.entries|
    ensures With(With(s, e, entry), e, entry') == With(s, e, entry')
  {
  }

  /** A request for a session with its settings that nobody holds: the thread has the lease, and the session counts as
      used from now; nothing else has changed. */
  lemma {:induction false} ReusedAlone(lim: Limits, s: State, t: Tid, key: string, spec: Spec)
    requires Inv(lim, s) && Ready(s, t) && key != "" && key in s.sessions
    requires s.entries[s.sessions[key]].spec == spec && s.entries[s.sessions[key]].owner == None
    ensures var e := s.sessions[key];
      Alone(lim, s, t, Ask(key, spec) + [Acquire(Decide)] + TAKE)
        == Some(With(Goto(s, t, Own(e, Leased)), e, s.entries[e].(owner := Some(t), lastUsed := s.clock)))
  {
    var e, call := s.sessions[key], Asking(s, key, spec);
    Asked(lim, s, t, key, spec);
    var asked := Goto(s, t, Seek(call, true)).(manager := Some(t));
    Then(lim, s, t, Ask(key, spec), Acquire(Decide), asked);
    GotoTwice(s, t, Seek(call, true), Poll(call, e));
    TakenAlone(lim, s, t, Ask(key, spec) + [Acquire(Decide)], call, e);
  }

  const TAKE: seq<Step> := [Acquire(TryEntry)] + [LockManager] + [Acquire(Recheck)]

  /** Once the lock of the entry is free, the polling thread has the lease if the entry is still the one at the key. */
  lemma {:induction false} TakenAlone(lim: Limits, s: State, t: Tid, before: seq<Step>, call: Call, e: Eid)
    requires t in s.pc && s.manager == None && e < |s.entries| && s.entries[e].owner == None
    requires Alone(lim, s, t, before) == Some(Goto(s, t, Poll(call, e)))
    requires call.key in s.sessions && s.sessions[call.key] == e
    ensures Alone(lim, s, t, before + TAKE)
      == Some(With(Goto(s, t, Own(e, Leased)), e, s.entries[e].(owner := Some(t), lastUsed := s.clock)))
  {
    var entry := s.entries[e].(owner := Some(t));
    LockedAlone(lim, s, t, before, call, e);
    var checking := Goto(With(s, e, entry), t, Confirm(call, e, Rechecking)).(manager := Some(t));
    Then(lim, s, t, before + [Acquire(TryEntry)] + [LockManager], Acquire(Recheck), checking);
    GotoTwice(With(s, e, entry), t, Confirm(call, e, Rechecking), Own(e, Leased));
    WithTwice(s, e, entry, entry.(lastUsed := s.clock));
    assert before + [Acquire(TryEntry)] + [LockManager] + [Acquire(Recheck)] == before + TAKE;
  }

  lemma {:induction false} LockedAlone(lim: Limits, s: State, t: Tid, before: seq<Step>, call: Call, e: Eid)
    requires t in s.pc && s.manager == None && e < |s.entries| && s.entries[e].owner == None
    requires Alone(lim, s, t, before) == Some(Goto(s, t, Poll(call, e)))
    ensures var entry := s.entries[e].(owner := Some(t));
      Alone(lim, s, t, before + [Acquire(TryEntry)] + [LockManager])
        == Some(Goto(With(s, e, entry), t, Confirm(call, e, Rechecking)).(manager := Some(t)))
  {
    var entry := s.entries[e].(owner := Some(t));
    Then(lim, s, t, before, Acquire(TryEntry), Goto(s, t, Poll(call, e)));
    GotoTwice(With(s, e, entry), t, Poll(call, e), Confirm(call, e, WantRecheck));
    assert Goto(SetOwner(Goto(s, t, Poll(call, e)), e, Some(t)), t, Confirm(call, e, WantRecheck))
      == Goto(With(s, e, entry), t, Confirm(call, e, WantRecheck));
    var steps := before + [Acquire(TryEntry)];
    Then(lim, s, t, steps, LockManager, Goto(With(s, e, entry), t, Confirm(call, e, WantRecheck)));
    GotoTwice(With(s, e, entry), t, Confirm(call, e, WantRecheck), Confirm(call, e, Rechecking));
  }

  /** A polling thread whose entry has been taken out of the map locks it, gives it back, and looks for its session
      anew. */
  lemma {:induction false} RetriedAlone(lim: Limits, s: State, t: Tid, call: Call, e: Eid)
    requires t in s.pc && s.pc[t] == Poll(call, e) && s.manager == None
    requires e < |s.entries| && s.entries[e].owner == None && !(call.key in s.sessions && s.sessions[call.key] == e)
    ensures Alone(lim, s, t, TAKE + [Acquire(UnlockStale)])
      == Some(Goto(s, t, Seek(call.(retried := call.retried + [e]), false)))
  {
    var entry := s.entries[e].(owner := Some(t));
    assert Goto(s, t, Poll(call, e)) == s by { assert s.pc[t := Poll(call, e)] == s.pc; }
    LockedAlone(lim, s, t, [], call, e);
    var taking: seq<Step> := [Acquire(TryEntry)] + [LockManager];
    assert [] + [Acquire(TryEntry)] + [LockManager] == taking;
    var checking := Goto(With(s, e, entry), t, Confirm(call, e, Rechecking)).(manager := Some(t));
    Then(lim, s, t, taking, Acquire(Recheck), checking);
    GotoTwice(With(s, e, entry), t, Confirm(call, e, Rechecking), Confirm(call, e, Stale));
    Then(lim, s, t, TAKE, Acquire(UnlockStale), Goto(With(s, e, entry), t, Confirm(call, e, Stale)));
    UnlockedAsBefore(s, t, e, entry, Confirm(call, e, Stale), Seek(call.(retried := call.retried + [e]), false));
  }

  /** Giving back the lock of an entry that has not been changed otherwise. */
  lemma UnlockedAsBefore(s: State, t: Tid, e: Eid, entry: Entry, p: Pc, q: Pc)
    requires e < |s.entries| && s.entries[e].owner == None && entry == s.entries[e].(owner := Some(t))
    ensures Goto(SetOwner(Goto(With(s, e, entry), t, p), e, None), t, q) == Goto(s, t, q)
  {
    assert s.entries[e := entry][e := entry.(owner := None)] == s.entries;
  }

  // ---------- A new session ----------

  /** The entry of a new session. */
  function NewEntry(key: string, spec: Spec, t: Tid): Entry {
    Entry(key, spec, Some(t), t, false, false, 0)
  }

  /** A request for a session that does not exist, while there is room: it has an entry at the key, locked, and not
      ready. */
  lemma {:induction false} InstalledAlone(lim: Limits, s: State, t: Tid, key: string, spec: Spec)
    requires Ready(s, t) && key != "" && key !in s.sessions && Room(lim, s, key)
    ensures var e := |s.entries|;
      Alone(lim, s, t, Ask(key, spec) + [Acquire(Decide)])
        == Some(Goto(s, t, Own(e, Creating)).(
             sessions := s.sessions[key := e], entries := s.entries + [NewEntry(key, spec, t)]))
  {
    Asked(lim, s, t, key, spec);
    RoomIsCapacity(lim, s, key);
    var asked := Goto(s, t, Seek(Asking(s, key, spec), true)).(manager := Some(t));
    Then(lim, s, t, Ask(key, spec), Acquire(Decide), asked);
    GotoTwice(s, t, Seek(Asking(s, key, spec), true), Own(|s.entries|, Creating));
  }

  /** The thread that is to build the session of entry e. */
  predicate Builds(s: State, t: Tid, e: Eid) {
    t in s.pc && s.pc[t] == Own(e, Creating) && e < |s.entries|
  }

  /** If the runtime makes the session and the disk takes its record, the thread has the lease, and waiters go
      on. */
  lemma {:induction false} CreatedAlone(lim: Limits, s: State, t: Tid, e: Eid)
    requires Builds(s, t, e)
    ensures Alone(lim, s, t, [Create(CreateSucceeds)] + [Create(SaveSucceeds)])
      == Some(With(Goto(s, t, Own(e, Leased)), e,
           s.entries[e].(hasSession := true, ready := true, lastUsed := s.clock)))
  {
    First(lim, s, t, Create(CreateSucceeds));
    var entry := s.entries[e].(hasSession := true, lastUsed := s.clock);
    WithTwice(s, e, s.entries[e].(hasSession := true), entry);
    Then(lim, s, t, [Create(CreateSucceeds)], Create(SaveSucceeds), Goto(With(s, e, entry), t, Own(e, Saving)));
    WithTwice(s, e, entry, entry.(ready := true));
    GotoTwice(With(s, e, entry), t, Own(e, Saving), Own(e, Leased));
  }

  const CLEAN_UP: seq<Step> :=
    [LockManager] + [Create(FailUnmapStep)] + [Create(FailUnlockStep)] + [Create(FailReadyStep)]

  /** If the runtime refuses, the entry is out of the map again, its lock is free, and waiters are let go. */
  lemma {:induction false} GivenUpAlone(lim: Limits, s: State, t: Tid, e: Eid)
    requires Builds(s, t, e) && s.manager == None
    ensures Alone(lim, s, t, [Create(CreateFails)] + CLEAN_UP)
      == Some(With(Goto(Unmap(s, e), t, Idle), e, s.entries[e].(owner := None, ready := true)))
  {
    var u := Unmap(s, e);
    First(lim, s, t, Create(CreateFails));
    Then(lim, s, t, [Create(CreateFails)], LockManager, Goto(s, t, Own(e, FailLock)));
    GotoTwice(s, t, Own(e, FailLock), Own(e, FailUnmap));
    var steps: seq<Step> := [Create(CreateFails)] + [LockManager];
    Then(lim, s, t, steps, Create(FailUnmapStep), Goto(s, t, Own(e, FailUnmap)).(manager := Some(t)));
    UnmapIn(s, t, Own(e, FailUnmap), Own(e, FailUnlock), e);
    steps := steps + [Create(FailUnmapStep)];
    Then(lim, s, t, steps, Create(FailUnlockStep), Goto(u, t, Own(e, FailUnlock)));
    GotoTwice(With(u, e, s.entries[e].(owner := None)), t, Own(e, FailUnlock), FailReady(e));
    GivenUpAtLast(lim, s, t, e, steps + [Create(FailUnlockStep)]);
    assert steps + [Create(FailUnlockStep)] + [Create(FailReadyStep)] == [Create(CreateFails)] + CLEAN_UP;
  }

  lemma {:induction false} GivenUpAtLast(lim: Limits, s: State, t: Tid, e: Eid, before: seq<Step>)
    requires t in s.pc && e < |s.entries|
    requires Alone(lim, s, t, before)
      == Some(Goto(With(Unmap(s, e), e, s.entries[e].(owner := None)), t, FailReady(e)))
    ensures Alone(lim, s, t, before + [Create(FailReadyStep)])
      == Some(With(Goto(Unmap(s, e), t, Idle), e, s.entries[e].(owner := None, ready := true)))
  {
    var u, free := Unmap(s, e), s.entries[e].(owner := None);
    Then(lim, s, t, before, Create(FailReadyStep), Goto(With(u, e, free), t, FailReady(e)));
    WithTwice(u, e, free, free.(ready := true));
    GotoTwice(With(u, e, free.(ready := true)), t, FailReady(e), Idle);
  }

  lemma UnmapIn(s: State, t: Tid, p: Pc, q: Pc, e: Eid)
    requires s.manager == None
    ensures DropManager(Goto(Unmap(Goto(s, t, p).(manager := Some(t)), e), t, q)) == Goto(Unmap(s, e), t, q)
  {
    GotoTwice(s, t, p, q);
  }

  lemma InstalledThen(s: State, t: Tid, key: string, entry: Entry, entry': Entry, p: Pc, q: Pc)
    ensures var e := |s.entries|;
      var installed := Goto(s, t, p).(sessions := s.sessions[key := e], entries := s.entries + [entry]);
      With(Goto(installed, t, q), e, entry')
        == Goto(s, t, q).(sessions := s.sessions[key := e], entries := s.entries + [entry'])
  {
    GotoTwice(s, t, p, q);
    assert (s.entries + [entry])[|s.entries| := entry'] == s.entries + [entry'];
  }

  /** A request for a session that does not exist, while there is room and the runtime and the disk play along: the
      thread has the lease on a new entry at the key, ready, with its session, used from now; nothing else has
      changed. */
  lemma {:induction false} NewSessionAlone(lim: Limits, s: State, t: Tid, key: string, spec: Spec)
    requires Ready(s, t) && key != "" && key !in s.sessions && Room(lim, s, key)
    ensures var e, entry := |s.entries|, Entry(key, spec, Some(t), t, true, true, s.clock);
      Alone(lim, s, t, Ask(key, spec) + [Acquire(Decide)] + ([Create(CreateSucceeds)] + [Create(SaveSucceeds)]))
        == Some(Goto(s, t, Own(e, Leased)).(
             sessions := s.sessions[key := e], entries := s.entries + [entry]))
  {
    var e, entry := |s.entries|, NewEntry(key, spec, t);
    InstalledAlone(lim, s, t, key, spec);
    var installed := Goto(s, t, Own(e, Creating)).(sessions := s.sessions[key := e], entries := s.entries + [entry]);
    CreatedAlone(lim, installed, t, e);
    AloneJoin(lim, s, t, Ask(key, spec) + [Acquire(Decide)], [Create(CreateSucceeds)] + [Create(SaveSucceeds)]);
    InstalledThen(s, t, key, entry, entry.(hasSession := true, ready := true, lastUsed := s.clock), Own(e, Creating),
      Own(e, Leased));
  }

  // ---------- Giving back and dropping ----------

  /** A lease given back: the session stays at its key, free, and counts as used from now. */
  lemma {:induction false} ReleasedAlone(lim: Limits, s: State, t: Tid, e: Eid)
    requires t in s.pc && s.pc[t] == Own(e, Leased) && e < |s.entries|
    ensures Alone(lim, s, t, [Finish(BeginRelease)] + [Finish(ReleaseUnlock)])
      == Some(With(Goto(s, t, Idle), e, s.entries[e].(owner := None, lastUsed := s.clock)))
  {
    var entry := s.entries[e].(lastUsed := s.clock);
    First(lim, s, t, Finish(BeginRelease));
    Then(lim, s, t, [Finish(BeginRelease)], Finish(ReleaseUnlock), Goto(With(s, e, entry), t, Own(e, Releasing)));
    WithTwice(s, e, entry, entry.(owner := None));
    GotoTwice(With(s, e, entry.(owner := None)), t, Own(e, Releasing), Idle);
  }

  const DISCARD: seq<Step> :=
    [Finish(BeginDiscard)] + [LockManager] + [Finish(DiscardUnmap)] + [Finish(DiscardUnlock)]

  /** Taking an entry out of the map leaves the others there, and one that is out already stays out. */
  lemma UnmapTakesOne(s: State, e: Eid)
    ensures !Mapped(Unmap(s, e), e)
    ensures Mapped(s, e) ==> Unmap(s, e).sessions == s.sessions - {s.entries[e].key}
    ensures !Mapped(s, e) ==> Unmap(s, e) == s
  {
  }

  /** A lease dropped: the session is out of the map, unless it was before, and its lock is free. */
  lemma {:induction false} DiscardedAlone(lim: Limits, s: State, t: Tid, e: Eid)
    requires t in s.pc && s.pc[t] == Own(e, Leased) && e < |s.entries| && s.manager == None
    ensures Alone(lim, s, t, DISCARD) == Some(With(Goto(Unmap(s, e), t, Idle), e, s.entries[e].(owner := None)))
    ensures var sessions := Unmap(s, e).sessions;
      if Mapped(s, e) then sessions == s.sessions - {s.entries[e].key} else sessions == s.sessions
  {
    var u := Unmap(s, e);
    UnmapTakesOne(s, e);
    First(lim, s, t, Finish(BeginDiscard));
    Then(lim, s, t, [Finish(BeginDiscard)], LockManager, Goto(s, t, Own(e, DiscLock)));
    GotoTwice(s, t, Own(e, DiscLock), Own(e, DiscUnmap));
    var steps: seq<Step> := [Finish(BeginDiscard)] + [LockManager];
    Then(lim, s, t, steps, Finish(DiscardUnmap), Goto(s, t, Own(e, DiscUnmap)).(manager := Some(t)));
    UnmapIn(s, t, Own(e, DiscUnmap), Own(e, DiscDestroy), e);
    steps := steps + [Finish(DiscardUnmap)];
    Then(lim, s, t, steps, Finish(DiscardUnlock), Goto(u, t, Own(e, DiscDestroy)));
    GotoTwice(With(u, e, s.entries[e].(owner := None)), t, Own(e, DiscDestroy), Idle);
  }

  // ---------- Shutdown and looking up ----------

  /** A thread that shuts down takes the lock of each entry that is free before it closes the session, and gives it
      back. */
  lemma {:induction false} ClosedAlone(lim: Limits, s: State, t: Tid, rest: seq<Eid>)
    requires t in s.pc && s.pc[t] == CloseWait(rest) && rest != []
    requires rest[0] < |s.entries| && s.entries[rest[0]].owner == None
    ensures Alone(lim, s, t, [Close(CloseTake)])
      == Some(With(Goto(s, t, CloseDestroy(rest[0], rest[1..])), rest[0], s.entries[rest[0]].(owner := Some(t))))
    ensures Alone(lim, s, t, [Close(CloseTake)] + [Close(CloseUnlock)]) == Some(Goto(s, t, CloseWait(rest[1..])))
  {
    var e := rest[0];
    var entry := s.entries[e].(owner := Some(t));
    First(lim, s, t, Close(CloseTake));
    var closing := Goto(With(s, e, entry), t, CloseDestroy(e, rest[1..]));
    Then(lim, s, t, [Close(CloseTake)], Close(CloseUnlock), closing);
    UnlockedAsBefore(s, t, e, entry, CloseDestroy(e, rest[1..]), CloseWait(rest[1..]));
  }

  /** Looking a key up leads to the entry at the key, for whose session the thread waits, or to nothing. */
  lemma {:induction false} LookedUpAlone(lim: Limits, s: State, t: Tid, key: string)
    requires Ready(s, t) && key != ""
    ensures Alone(lim, s, t, [Begin(BeginLookup(key))] + [LockManager] + [Lookup(LookupRead)])
      == Some(if key in s.sessions then Goto(s, t, LookWait(s.sessions[key])) else s)
  {
    First(lim, s, t, Begin(BeginLookup(key)));
    Then(lim, s, t, [Begin(BeginLookup(key))], LockManager, Goto(s, t, LookLock(key)));
    GotoTwice(s, t, LookLock(key), LookRead(key));
    var reading := Goto(s, t, LookRead(key)).(manager := Some(t));
    Then(lim, s, t, [Begin(BeginLookup(key))] + [LockManager], Lookup(LookupRead), reading);
    if key in s.sessions {
      GotoTwice(s, t, LookRead(key), LookWait(s.sessions[key]));
    } else {
      GotoTwice(s, t, LookRead(key), Idle);
      assert s.pc[t := Idle] == s.pc;
    }
  }
}
