/** What the lease protocol guarantees in every reachable state and over every run. */
module LeaseTheorems {
  import opened Prelude
  import opened SessionSpec
  import opened LeaseProtocol
  import opened LeaseEffects
  import opened LeaseInvariant
  import SessionKeys

  lemma StepKeepsInv(lim: Limits, s: State, s': State)
    requires Inv(lim, s) && Next(lim, s, s')
    ensures Inv(lim, s') && s.buried <= s'.buried && s'.pc.Keys == s.pc.Keys
    ensures exists t :: t in s.pc && Effect(lim, s, s', t)
  {
    var t, st :| StepBy(lim, s, s', t, st);
    HasEffect(lim, s, s', t, st);
    EffectKeepsThreads(lim, s, s', t);
    InvKept(lim, s, s', t);
  }

  lemma HasEffect(lim: Limits, s: State, s': State, t: Tid, st: Step)
    requires Inv(lim, s) && StepBy(lim, s, s', t, st)
    ensures t in s.pc && Effect(lim, s, s', t)
  {
    InvReady(lim, s, t);
    StepEffect(lim, s, s', t, st);
  }

  lemma EffectKeepsThreads(lim: Limits, s: State, s': State, t: Tid)
    requires Effect(lim, s, s', t)
    ensures s'.pc.Keys == s.pc.Keys
  {
  }

  lemma InitInv(lim: Limits, s: State)
    requires Init(s)
    ensures Inv(lim, s)
  {
    forall t | t in s.pc ensures forall e :: !Holds(s.pc[t], e) && !MustReady(s.pc[t], e) && !Mentions(s.pc[t], e) {
    }
    assert forall n :: InNamespace(s.sessions, n) == {};
  }

  lemma {:induction false} RunKeepsInv(lim: Limits, run: seq<State>, i: nat)
    requires IsRun(lim, run) && i < |run|
    ensures Inv(lim, run[i])
    decreases i
  {
    if i == 0 {
      InitInv(lim, run[0]);
    } else {
      RunKeepsInv(lim, run, i - 1);
      assert Linked(lim, run, i - 1);
      StepKeepsInv(lim, run[i - 1], run[i]);
    }
  }

  // ---------- Exclusion ----------

  ghost predicate HasLease(s: State, t: Tid, e: Eid) {
    t in s.pc && s.pc[t] == Own(e, Leased)
  }

  /** A lease always holds the lock of its entry, whose session is there; and the entry is the one
      mapped at its key exactly when closeContext has not orphaned it. */
  lemma LeaseOwnsItsEntry(lim: Limits, run: seq<State>, i: nat, t: Tid, e: Eid)
    requires IsRun(lim, run) && i < |run| && HasLease(run[i], t, e)
    ensures e < |run[i].entries|
    ensures run[i].entries[e].owner == Some(t) && run[i].entries[e].hasSession
    ensures Mapped(run[i], e) <==> e !in run[i].orphaned
  {
    var s := run[i];
    RunKeepsInv(lim, run, i);
    assert Mentions(s.pc[t], e) && Holds(s.pc[t], e) && Claims(s.pc[t], e);
  }

  /** No entry is ever leased twice, closeContext or not. */
  lemma EntryExclusion(lim: Limits, run: seq<State>, i: nat, t1: Tid, t2: Tid, e: Eid)
    requires IsRun(lim, run) && i < |run| && HasLease(run[i], t1, e) && HasLease(run[i], t2, e)
    ensures t1 == t2
  {
    LeaseOwnsItsEntry(lim, run, i, t1, e);
    LeaseOwnsItsEntry(lim, run, i, t2, e);
  }

  /** No key has two outstanding leases on entries that closeContext left alone, in any interleaving. */
  lemma KeyExclusion(lim: Limits, run: seq<State>, i: nat, t1: Tid, e1: Eid, t2: Tid, e2: Eid)
    requires IsRun(lim, run) && i < |run| && HasLease(run[i], t1, e1) && HasLease(run[i], t2, e2)
    requires e1 < |run[i].entries| && e2 < |run[i].entries| && run[i].entries[e1].key == run[i].entries[e2].key
    requires e1 !in run[i].orphaned && e2 !in run[i].orphaned
    ensures t1 == t2 && e1 == e2
  {
    LeaseOwnsItsEntry(lim, run, i, t1, e1);
    LeaseOwnsItsEntry(lim, run, i, t2, e2);
  }

  // ---------- Lock conservation ----------

  lemma OwnerHolds(lim: Limits, s: State, e: Eid)
    requires Inv(lim, s) && e < |s.entries|
    ensures s.entries[e].owner.Some? ==> s.entries[e].owner.value in s.pc && Holds(s.pc[s.entries[e].owner.value], e)
  {
    assert s.entries[e].owner.Some? ==> s.entries[e].owner == Some(s.entries[e].owner.value);
  }

  /** A thread between operations holds nothing and has closed the ready channel of every entry it created;
      when all are, every lock is free and every channel closed. */
  lemma IdleHoldsNothing(lim: Limits, run: seq<State>, i: nat)
    requires IsRun(lim, run) && i < |run|
    ensures forall t :: t in run[i].pc && run[i].pc[t].Idle? ==>
      && run[i].manager != Some(t)
      && (forall e: Eid :: e < |run[i].entries| ==> run[i].entries[e].owner != Some(t))
      && (forall e: Eid :: e < |run[i].entries| && run[i].entries[e].creator == t ==> run[i].entries[e].ready)
    ensures (forall t :: t in run[i].pc ==> run[i].pc[t].Idle?) ==>
      run[i].manager == None && forall e: Eid :: e < |run[i].entries| ==>
        run[i].entries[e].owner == None && run[i].entries[e].ready
  {
    RunKeepsInv(lim, run, i);
    var s := run[i];
    forall e: Eid | e < |s.entries|
      ensures s.entries[e].owner.Some? ==> s.entries[e].owner.value in s.pc && Holds(s.pc[s.entries[e].owner.value], e)
    {
      OwnerHolds(lim, s, e);
    }
    assert s.manager.Some? ==> s.manager == Some(s.manager.value);
  }

  // ---------- Progress ----------

  /** A step of the thread itself: not the start of an operation, not giving up, not the clock. */
  predicate Advances(st: Step) {
    !st.Begin? && !st.Tick? && st != Acquire(ContextEnds) && !(st.Close? && st.close.CloseSkip?)
  }

  ghost predicate CanMove(s: State, t: Tid) {
    t in s.pc && exists st :: Enabled(s, t, st) && Advances(st)
  }

  /** Thread t cannot move before thread b has: b has the lock it wants, or has yet to close the
      ready channel it waits for. */
  ghost predicate WaitsFor(s: State, t: Tid, b: Tid)
    requires t in s.pc
  {
    var p := s.pc[t];
    || (WantsManager(p) && s.manager == Some(b))
    || (p.Poll? && InRange(s, p.e) && s.entries[p.e].owner == Some(b))
    || (p.LookWait? && InRange(s, p.e) && !s.entries[p.e].ready && s.entries[p.e].creator == b)
    || (p.CloseWait? && p.rest != [] && InRange(s, p.rest[0]) && s.entries[p.rest[0]].owner == Some(b))
  }

  /** The holder of the manager lock never waits for anything. */
  lemma ManagerHolderMoves(lim: Limits, s: State, t: Tid)
    requires Inv(lim, s) && s.manager == Some(t)
    ensures CanMove(s, t)
    ensures forall b :: !WaitsFor(s, t, b)
  {
    var p := s.pc[t];
    match p
    case Seek(_, _) => assert Enabled(s, t, Acquire(Decide));
    case Confirm(_, _, _) => assert Enabled(s, t, Acquire(Recheck));
    case Own(_, stage) =>
      if stage.FailUnmap? {
        assert Enabled(s, t, Create(FailUnmapStep));
      } else {
        assert Enabled(s, t, Finish(DiscardUnmap));
      }
    case Sweeping(_, _, _, _) => SweeperMoves(s, t);
    case CloseDrain =>
      var order := Enumerate(s.sessions.Values);
      assert Enabled(s, t, Close(Drain(order)));
    case LookRead(_) => assert Enabled(s, t, Lookup(LookupRead));
    case _ =>
  }

  lemma SweeperMoves(s: State, t: Tid)
    requires t in s.pc && s.pc[t].Sweeping? && MapShape(s) && SweepOk(s, s.pc[t])
    ensures CanMove(s, t)
  {
    var p := s.pc[t];
    if p.looked.Some? {
      assert Enabled(s, t, Sweep(SweepTry));
    } else if p.todo == {} {
      assert Enabled(s, t, Sweep(SweepEnd));
    } else {
      var k :| k in p.todo;
      assert Enabled(s, t, Sweep(SweepLook(k)));
    }
  }

  /** Whoever has an entry lock can move, or is next in line for the manager lock. */
  lemma EntryHolderMoves(lim: Limits, s: State, h: Tid, e: Eid)
    requires Inv(lim, s) && e < |s.entries| && s.entries[e].owner == Some(h)
    ensures CanMove(s, h) || (WantsManager(s.pc[h]) && s.manager.Some?)
  {
    var p := s.pc[h];
    assert Holds(p, e);
    if s.manager == Some(h) {
      ManagerHolderMoves(lim, s, h);
    } else if WantsManager(p) {
      assert s.manager == None ==> Enabled(s, h, LockManager);
    } else {
      UnblockedOwnerMoves(s, h, e);
    }
  }

  lemma UnblockedOwnerMoves(s: State, h: Tid, e: Eid)
    requires h in s.pc && Holds(s.pc[h], e) && !WantsManager(s.pc[h]) && !HoldsManager(s.pc[h])
    ensures CanMove(s, h)
  {
    match s.pc[h]
    case Confirm(_, _, _) => assert Enabled(s, h, Acquire(UnlockStale));
    case Own(_, stage) =>
      match stage {
        case Creating => assert Enabled(s, h, Create(CreateFails));
        case Saving => assert Enabled(s, h, Create(SaveFails));
        case FailUnlock => assert Enabled(s, h, Create(FailUnlockStep));
        case Leased => assert Enabled(s, h, Finish(BeginRelease));
        case Releasing => assert Enabled(s, h, Finish(ReleaseUnlock));
        case DiscDestroy => assert Enabled(s, h, Finish(DiscardUnlock));
        case _ =>
      }
    case SweepDestroy(stale) => assert Enabled(s, h, Sweep(SweepUnlock(e)));
    case CloseDestroy(_, _) => assert Enabled(s, h, Close(CloseUnlock));
    case _ =>
  }

  /** The creator of an entry that is not ready yet can move, or is next in line for the manager lock. */
  lemma CreatorMoves(lim: Limits, s: State, e: Eid)
    requires Inv(lim, s) && e < |s.entries| && !s.entries[e].ready
    ensures var c := s.entries[e].creator;
      c in s.pc && (CanMove(s, c) || (WantsManager(s.pc[c]) && s.manager.Some?))
  {
    var c := s.entries[e].creator;
    var p := s.pc[c];
    if p.FailReady? {
      assert Enabled(s, c, Create(FailReadyStep));
    } else {
      assert Holds(p, e) && Mentions(p, e);
      EntryHolderMoves(lim, s, c, e);
    }
  }

  /** A thread in the middle of an operation can move, or waits for a thread whose own wait,
      if any, is for the holder of the manager lock. */
  lemma BlockedOrMoves(lim: Limits, s: State, t: Tid)
    requires Inv(lim, s) && t in s.pc && !s.pc[t].Idle?
    ensures CanMove(s, t) ||
      exists b :: b in s.pc && WaitsFor(s, t, b) && (CanMove(s, b) || (WantsManager(s.pc[b]) && s.manager.Some?))
  {
    var p := s.pc[t];
    if WantsManager(p) {
      if s.manager == None {
        assert Enabled(s, t, LockManager);
      } else {
        ManagerHolderMoves(lim, s, s.manager.value);
        assert WaitsFor(s, t, s.manager.value);
      }
    } else if s.manager == Some(t) {
      ManagerHolderMoves(lim, s, t);
    } else if p.Poll? || p.CloseWait? {
      PollerMoves(lim, s, t);
    } else if p.LookWait? {
      assert Mentions(p, p.e);
      if s.entries[p.e].ready {
        assert Enabled(s, t, Lookup(LookupReturn));
      } else {
        CreatorMoves(lim, s, p.e);
        assert WaitsFor(s, t, s.entries[p.e].creator);
      }
    } else {
      OwnerOrLastMoves(s, t);
    }
  }

  lemma PollerMoves(lim: Limits, s: State, t: Tid)
    requires Inv(lim, s) && t in s.pc && (s.pc[t].Poll? || s.pc[t].CloseWait?)
    ensures CanMove(s, t) ||
      exists b :: b in s.pc && WaitsFor(s, t, b) && (CanMove(s, b) || (WantsManager(s.pc[b]) && s.manager.Some?))
  {
    var p := s.pc[t];
    if p.CloseWait? && p.rest == [] {
      assert Enabled(s, t, Close(CloseReturn));
    } else {
      var e := if p.Poll? then p.e else p.rest[0];
      assert Mentions(p, e);
      if s.entries[e].owner == None {
        assert Enabled(s, t, if p.Poll? then Acquire(TryEntry) else Close(CloseTake));
      } else {
        var h := s.entries[e].owner.value;
        EntryHolderMoves(lim, s, h, e);
        assert WaitsFor(s, t, h);
      }
    }
  }

  lemma OwnerOrLastMoves(s: State, t: Tid)
    requires t in s.pc && !s.pc[t].Idle? && !WantsManager(s.pc[t]) && !HoldsManager(s.pc[t])
    requires !s.pc[t].Poll? && !s.pc[t].CloseWait? && !s.pc[t].LookWait?
    ensures CanMove(s, t)
  {
    match s.pc[t]
    case FailReady(_) => assert Enabled(s, t, Create(FailReadyStep));
    case SweepDestroy(stale) =>
      if stale == {} {
        assert Enabled(s, t, Sweep(SweepReturn));
      } else {
        var e :| e in stale;
        UnblockedOwnerMoves(s, t, e);
      }
    case Confirm(_, e, _) => UnblockedOwnerMoves(s, t, e);
    case Own(e, _) => UnblockedOwnerMoves(s, t, e);
    case CloseDestroy(e, _) => UnblockedOwnerMoves(s, t, e);
    case _ =>
  }

  /** No deadlock: every thread in the middle of an operation can move, or waits for a thread that
      can, or waits for one that waits for a thread that can. */
  lemma WaitsAreShort(lim: Limits, run: seq<State>, i: nat, t: Tid)
    requires IsRun(lim, run) && i < |run| && t in run[i].pc && !run[i].pc[t].Idle?
    ensures var s := run[i];
      || CanMove(s, t)
      || (exists b :: b in s.pc && WaitsFor(s, t, b) && CanMove(s, b))
      || (exists b, c :: b in s.pc && c in s.pc && WaitsFor(s, t, b) && WaitsFor(s, b, c) && CanMove(s, c))
  {
    var s := run[i];
    RunKeepsInv(lim, run, i);
    BlockedOrMoves(lim, s, t);
    if !CanMove(s, t) {
      var b :| b in s.pc && WaitsFor(s, t, b) && (CanMove(s, b) || (WantsManager(s.pc[b]) && s.manager.Some?));
      if !CanMove(s, b) {
        var c := s.manager.value;
        ManagerHolderMoves(lim, s, c);
        assert WaitsFor(s, b, c) && c in s.pc;
      }
    }
  }

  // ---------- Retries ----------

  predicate InCall(p: Pc) {
    p.Seek? || p.Poll? || p.Confirm?
  }

  /** Thread t started a call of Acquire right after state i and is still in it at state j. */
  ghost predicate SameCall(run: seq<State>, i: nat, j: nat, t: Tid)
    requires i < j < |run|
  {
    && t in run[i].pc && run[i].pc[t].Idle?
    && forall m :: i < m <= j ==> t in run[m].pc && InCall(run[m].pc[t])
  }

  lemma OneStep(lim: Limits, run: seq<State>, i: nat) returns (u: Tid)
    requires IsRun(lim, run) && i + 1 < |run|
    ensures u in run[i].pc && Effect(lim, run[i], run[i + 1], u) && run[i].buried <= run[i + 1].buried
  {
    RunKeepsInv(lim, run, i);
    assert Linked(lim, run, i);
    StepKeepsInv(lim, run[i], run[i + 1]);
    u :| u in run[i].pc && Effect(lim, run[i], run[i + 1], u);
  }

  lemma CallCarriesOn(s: State, s': State, t: Tid, u: Tid)
    requires ThreadEffect(s, s', u) && CallEffect(s, s', u)
    requires t in s.pc && InCall(s'.pc[t])
    ensures s.pc[t].Idle? ==> s'.pc[t].call.buriedAtStart == s.buried
    ensures InCall(s.pc[t]) ==> s'.pc[t].call.buriedAtStart == s.pc[t].call.buriedAtStart
  {
  }

  lemma OneStepOfCall(lim: Limits, run: seq<State>, i: nat, t: Tid)
    requires IsRun(lim, run) && i + 1 < |run| && t in run[i].pc && t in run[i + 1].pc && InCall(run[i + 1].pc[t])
    ensures run[i].pc[t].Idle? ==> run[i + 1].pc[t].call.buriedAtStart == run[i].buried
    ensures InCall(run[i].pc[t]) ==> run[i + 1].pc[t].call.buriedAtStart == run[i].pc[t].call.buriedAtStart
  {
    var u := OneStep(lim, run, i);
    CallCarriesOn(run[i], run[i + 1], t, u);
  }

  lemma {:induction false} CallStartsAt(lim: Limits, run: seq<State>, i: nat, j: nat, t: Tid)
    requires IsRun(lim, run) && i < j < |run| && SameCall(run, i, j, t)
    ensures run[j].pc[t].call.buriedAtStart == run[i].buried
    decreases j
  {
    OneStepOfCall(lim, run, j - 1, t);
    if i < j - 1 {
      CallStartsAt(lim, run, i, j - 1, t);
    }
  }

  /** A call of Acquire goes round its loop at most once for every entry that is unmapped while it runs,
      and never gives the same entry back twice. */
  lemma RetriesAreBounded(lim: Limits, run: seq<State>, i: nat, j: nat, t: Tid)
    requires IsRun(lim, run) && i < j < |run| && SameCall(run, i, j, t)
    ensures var retried := run[j].pc[t].call.retried;
      && NoDuplicates(retried)
      && Elements(retried) <= run[j].buried - run[i].buried
      && |retried| <= |run[j].buried - run[i].buried|
  {
    var call := run[j].pc[t].call;
    CallStartsAt(lim, run, i, j, t);
    RunKeepsInv(lim, run, j);
    assert CallInvariant(run[j], run[j].pc[t]);
    DistinctSize(call.retried);
    SubsetSize(Elements(call.retried), run[j].buried - run[i].buried);
  }

  // ---------- Readiness ----------

  /** Looking a mapped key up can only ever return a session: if its channel is closed the session is
      there, and if it is not, the creator is still at work on that very entry. */
  lemma MappedIsReadyOrInTheMaking(lim: Limits, run: seq<State>, i: nat, k: string)
    requires IsRun(lim, run) && i < |run| && k in run[i].sessions
    ensures var s := run[i]; var e := s.sessions[k];
      && e < |s.entries| && s.entries[e].key == k
      && (s.entries[e].ready ==> s.entries[e].hasSession)
      && (s.entries[e].ready || (s.entries[e].creator in s.pc && MustReady(s.pc[s.entries[e].creator], e)))
      && (s.entries[e].ready || s.entries[e].owner == Some(s.entries[e].creator))
  {
    RunKeepsInv(lim, run, i);
    var s := run[i];
    var e := s.sessions[k];
    assert Mapped(s, e);
    if !s.entries[e].ready {
      assert Holds(s.pc[s.entries[e].creator], e);
    }
  }

  /** How many steps of its own a creator is at most away from closing the ready channel. */
  function StepsToReady(p: Pc): nat {
    match p
    case Own(_, stage) =>
      (match stage
       case Creating => 6
       case Saving => 5
       case FailLock => 4
       case FailUnmap => 3
       case FailUnlock => 2
       case _ => 0)
    case FailReady(_) => 1
    case _ => 0
  }

  lemma AcquireStepsStay(lim: Limits, s: State, s': State, u: Tid, st: Step, t: Tid)
    requires StepBy(lim, s, s', u, st) && t in s.pc && u != t && st.Acquire?
    ensures t in s'.pc && s'.pc[t] == s.pc[t]
  {
  }

  lemma CreateStepsStay(s: State, u: Tid, c: CreateStep, t: Tid)
    requires u in s.pc && EnabledCreate(s.pc[u], c) && t in s.pc && u != t
    ensures t in ApplyCreate(s, u, c).pc && ApplyCreate(s, u, c).pc[t] == s.pc[t]
  {
  }

  lemma FinishStepsStay(s: State, u: Tid, f: FinishStep, t: Tid)
    requires u in s.pc && EnabledFinish(s.pc[u], f) && t in s.pc && u != t
    ensures t in ApplyFinish(s, u, f).pc && ApplyFinish(s, u, f).pc[t] == s.pc[t]
  {
  }

  lemma OtherStepsStay(lim: Limits, s: State, s': State, u: Tid, st: Step, t: Tid)
    requires StepBy(lim, s, s', u, st) && t in s.pc && (u != t || st.Tick?)
    requires !st.Acquire? && !st.Create? && !st.Finish?
    ensures t in s'.pc && s'.pc[t] == s.pc[t]
  {
  }

  lemma OthersStay(lim: Limits, s: State, s': State, u: Tid, st: Step, t: Tid)
    requires StepBy(lim, s, s', u, st) && t in s.pc && (u != t || st.Tick?)
    ensures t in s'.pc && s'.pc[t] == s.pc[t]
  {
    if st.Acquire? {
      AcquireStepsStay(lim, s, s', u, st, t);
    } else if st.Create? {
      CreateStepsStay(s, u, st.create, t);
    } else if st.Finish? {
      FinishStepsStay(s, u, st.finish, t);
    } else {
      OtherStepsStay(lim, s, s', u, st, t);
    }
  }

  lemma CreatorStepCounts(lim: Limits, s: State, s': State, st: Step, t: Tid, e: Eid)
    requires StepBy(lim, s, s', t, st) && MustReady(s.pc[t], e) && !st.Tick?
    ensures t in s'.pc && StepsToReady(s'.pc[t]) < StepsToReady(s.pc[t])
  {
    assert st.Create? || st.LockManager?;
  }

  /** A creator on its way to closing the channel comes nearer with each step of its own, and no step of
      another thread sets it back. */
  lemma CreatorStep(lim: Limits, s: State, s': State, u: Tid, st: Step, t: Tid, e: Eid)
    requires StepBy(lim, s, s', u, st) && t in s.pc && MustReady(s.pc[t], e)
    ensures t in s'.pc
    ensures u != t || st.Tick? ==> s'.pc[t] == s.pc[t]
    ensures u == t && !st.Tick? ==> StepsToReady(s'.pc[t]) < StepsToReady(s.pc[t])
  {
    if u == t && !st.Tick? {
      CreatorStepCounts(lim, s, s', st, t, e);
    } else {
      OthersStay(lim, s, s', u, st, t);
    }
  }

  /** The steps of run up to j are those of the given threads. */
  ghost predicate Scheduled(lim: Limits, run: seq<State>, who: seq<Tid>, what: seq<Step>) {
    && |who| == |what| && |run| == |who| + 1
    && forall i: nat :: i < |who| ==> TakenBy(lim, run, who, what, i)
  }

  ghost predicate TakenBy(lim: Limits, run: seq<State>, who: seq<Tid>, what: seq<Step>, i: nat)
    requires i < |who| && |who| == |what| && |run| == |who| + 1
  {
    StepBy(lim, run[i], run[i + 1], who[i], what[i])
  }

  /** The steps thread t itself takes from i up to j. */
  ghost function OwnSteps(who: seq<Tid>, what: seq<Step>, t: Tid, i: nat, j: nat): nat
    requires i <= j <= |who| == |what|
    decreases j
  {
    if i == j then 0 else OwnSteps(who, what, t, i, j - 1) + if who[j - 1] == t && !what[j - 1].Tick? then 1 else 0
  }

  /** Either the channel is closed, or the creator is still at it and each step of its own has brought it nearer. */
  ghost predicate Finishing(s: State, t: Tid, e: Eid, taken: nat, atFirst: nat) {
    && e < |s.entries| && s.entries[e].creator == t
    && (s.entries[e].ready || (t in s.pc && MustReady(s.pc[t], e) && taken + StepsToReady(s.pc[t]) <= atFirst))
  }

  lemma FinishingGoesOn(lim: Limits, s: State, s': State, u: Tid, st: Step, t: Tid, e: Eid, taken: nat, atFirst: nat)
    requires Inv(lim, s) && StepBy(lim, s, s', u, st) && Finishing(s, t, e, taken, atFirst)
    ensures Finishing(s', t, e, taken + if u == t && !st.Tick? then 1 else 0, atFirst)
  {
    InvReady(lim, s, u);
    StepEffect(lim, s, s', u, st);
    assert EntryEffect(s, s', u);
    if !s.entries[e].ready {
      CreatorStep(lim, s, s', u, st, t, e);
    }
  }

  lemma CreatorOwes(s: State, t: Tid, e: Eid)
    requires CreatorsPending(s) && t in s.pc && MustReady(s.pc[t], e)
    ensures e < |s.entries| && s.entries[e].creator == t && !s.entries[e].ready
  {
  }

  lemma FinishingStarts(lim: Limits, run: seq<State>, i: nat, t: Tid, e: Eid)
    requires IsRun(lim, run) && i < |run| && t in run[i].pc && MustReady(run[i].pc[t], e)
    ensures Finishing(run[i], t, e, 0, StepsToReady(run[i].pc[t]))
  {
    RunKeepsInv(lim, run, i);
    CreatorOwes(run[i], t, e);
  }

  lemma FinishingOnceMore(lim: Limits, run: seq<State>, who: seq<Tid>, what: seq<Step>, i: nat, t: Tid, e: Eid,
      taken: nat, atFirst: nat)
    requires IsRun(lim, run) && Scheduled(lim, run, who, what) && i < |who| && Finishing(run[i], t, e, taken, atFirst)
    ensures Finishing(run[i + 1], t, e, taken + if who[i] == t && !what[i].Tick? then 1 else 0, atFirst)
  {
    RunKeepsInv(lim, run, i);
    assert TakenBy(lim, run, who, what, i);
    FinishingGoesOn(lim, run[i], run[i + 1], who[i], what[i], t, e, taken, atFirst);
  }

  lemma FinishingEnds(s: State, t: Tid, e: Eid, taken: nat, atFirst: nat)
    requires Finishing(s, t, e, taken, atFirst) && atFirst <= 6
    ensures taken >= 6 || t !in s.pc || !MustReady(s.pc[t], e) ==> s.entries[e].ready
  {
  }

  /** A creator closes the ready channel of its entry, and does so within six steps of its own, whatever the other
      threads do in between and however its creation ends: it is closed once it has taken that many steps, or has
      nothing more to do with the entry's readiness. */
  lemma {:induction false} CreatorFinishes(lim: Limits, run: seq<State>, who: seq<Tid>, what: seq<Step>, i: nat, j: nat,
      t: Tid, e: Eid)
    requires IsRun(lim, run) && Scheduled(lim, run, who, what) && i <= j < |run|
    requires t in run[i].pc && MustReady(run[i].pc[t], e)
    ensures Finishing(run[j], t, e, OwnSteps(who, what, t, i, j), StepsToReady(run[i].pc[t]))
    ensures OwnSteps(who, what, t, i, j) >= 6 || t !in run[j].pc || !MustReady(run[j].pc[t], e) ==>
      run[j].entries[e].ready
    decreases j
  {
    if i == j {
      FinishingStarts(lim, run, i, t, e);
    } else {
      CreatorFinishes(lim, run, who, what, i, j - 1, t, e);
      FinishingOnceMore(lim, run, who, what, j - 1, t, e, OwnSteps(who, what, t, i, j - 1),
        StepsToReady(run[i].pc[t]));
    }
    FinishingEnds(run[j], t, e, OwnSteps(who, what, t, i, j), StepsToReady(run[i].pc[t]));
  }

  // ---------- Capacity ----------

  /** Neither limit is ever exceeded; seen from an API key: the sessions under its scoped keys. */
  lemma CapacityHolds(lim: Limits, run: seq<State>, i: nat, namespace: string)
    requires IsRun(lim, run) && i < |run|
    ensures lim.maxActive > 0 ==> |run[i].sessions| <= lim.maxActive
    ensures lim.maxPerNamespace > 0 && ':' !in namespace ==>
      forall publicKeys: set<string> ::
        (forall p :: p in publicKeys ==> p != "" && SessionKeys.ScopedSessionKey(namespace, p) in run[i].sessions) ==>
          |publicKeys| <= lim.maxPerNamespace
  {
    RunKeepsInv(lim, run, i);
    if lim.maxPerNamespace > 0 && ':' !in namespace {
      forall publicKeys: set<string> | forall p :: p in publicKeys ==>
        p != "" && SessionKeys.ScopedSessionKey(namespace, p) in run[i].sessions
        ensures |publicKeys| <= lim.maxPerNamespace
      {
        ScopedCount(namespace, publicKeys, InNamespace(run[i].sessions, namespace));
      }
    }
  }

  lemma ScopedCount(namespace: string, publicKeys: set<string>, scoped: set<string>)
    requires ':' !in namespace && "" !in publicKeys
    requires forall p :: p in publicKeys ==>
      SessionKeys.ScopedSessionKey(namespace, p) in scoped
        || SessionKeys.SessionNamespace(SessionKeys.ScopedSessionKey(namespace, p)) != namespace
    ensures |publicKeys| <= |scoped|
    decreases |publicKeys|
  {
    if publicKeys != {} {
      var p :| p in publicKeys;
      var key := SessionKeys.ScopedSessionKey(namespace, p);
      SessionKeys.ScopedKeyRoundTrip(namespace, p);
      forall q | q in publicKeys - {p} ensures SessionKeys.ScopedSessionKey(namespace, q) in scoped - {key} {
        SessionKeys.ScopedKeyRoundTrip(namespace, q);
        if SessionKeys.ScopedSessionKey(namespace, q) == key {
          SessionKeys.ScopingIsInjective(namespace, p, namespace, q);
        }
      }
      ScopedCount(namespace, publicKeys - {p}, scoped - {key});
    }
  }

  // ---------- What closeContext costs ----------

  ghost function Do(lim: Limits, run: seq<State>, t: Tid, st: Step): (longer: seq<State>)
    requires IsRun(lim, run)
    requires t in run[|run| - 1].pc && Enabled(run[|run| - 1], t, st)
    ensures IsRun(lim, longer)
    ensures longer[|longer| - 1] == Apply(lim, run[|run| - 1], t, st)
  {
    var last := run[|run| - 1];
    var longer := run + [Apply(lim, last, t, st)];
    assert StepBy(lim, last, longer[|longer| - 1], t, st);
    forall i: nat | i + 1 < |longer| ensures Linked(lim, longer, i) {
      if i + 1 < |run| {
        assert Linked(lim, run, i) && longer[i] == run[i] && longer[i + 1] == run[i + 1];
      }
    }
    longer
  }

  /** One uncontended Acquire of a new key. */
  ghost function AcquireNew(lim: Limits, run: seq<State>, t: Tid, key: string, spec: Spec): (longer: seq<State>)
    requires IsRun(lim, run) && key != "" && lim.maxActive <= 0 && lim.maxPerNamespace <= 0
    requires var s := run[|run| - 1];
      t in s.pc && s.pc[t].Idle? && s.manager == None && key !in s.sessions
    ensures IsRun(lim, longer)
    ensures var s, s' := run[|run| - 1], longer[|longer| - 1];
      && s'.pc == s.pc[t := Own(|s.entries|, Leased)] && s'.manager == None
      && |s'.entries| == |s.entries| + 1 && s'.entries[..|s.entries|] == s.entries && s'.entries[|s.entries|].key == key
      && s'.sessions == s.sessions[key := |s.entries|] && s'.orphaned == s.orphaned
      && s'.clock == s.clock && s'.entries[|s.entries|].lastUsed == s.clock && s'.entries[|s.entries|].owner == Some(t)
  {
    var r1 := Do(lim, run, t, Begin(BeginAcquire(key, spec)));
    var r2 := Do(lim, r1, t, LockManager);
    var r3 := Do(lim, r2, t, Acquire(Decide));
    var r4 := Do(lim, r3, t, Create(CreateSucceeds));
    Do(lim, r4, t, Create(SaveSucceeds))
  }

  /** closeContext up to the point where it starts waiting for the single entry it has unmapped. */
  ghost function CloseOne(lim: Limits, run: seq<State>, t: Tid, key: string): (longer: seq<State>)
    requires IsRun(lim, run)
    requires var s := run[|run| - 1];
      t in s.pc && s.pc[t].Idle? && s.manager == None && s.sessions == map[key := 0]
    ensures IsRun(lim, longer)
    ensures var s, s' := run[|run| - 1], longer[|longer| - 1];
      && s'.pc == s.pc[t := CloseWait([0])] && s'.manager == None
      && s'.entries == s.entries && s'.sessions == map[] && s'.orphaned == s.orphaned + {0}
  {
    var r1 := Do(lim, run, t, Begin(BeginClose));
    var r2 := Do(lim, r1, t, LockManager);
    assert r2[|r2| - 1].sessions[key] == 0;
    assert Elements([0]) == {0} == r2[|r2| - 1].sessions.Values;
    Do(lim, r2, t, Close(Drain([0])))
  }

  lemma LeasedOnce(key: string, spec: Spec) returns (run: seq<State>)
    requires key != ""
    ensures IsRun(Limits(0, 0, 0), run)
    ensures var s := run[|run| - 1];
      && s.pc == map[0 := Own(0, Leased), 1 := Idle, 2 := Idle] && s.manager == None && s.sessions == map[key := 0]
      && |s.entries| == 1 && s.entries[0].key == key && s.orphaned == {}
  {
    var start := State(0, None, map[], [], {}, {}, map[0 := Idle, 1 := Idle, 2 := Idle]);
    run := AcquireNew(Limits(0, 0, 0), [start], 0, key, spec);
  }

  /** A run that leaves a leased entry unmapped, its holder at work and a third thread idle. */
  lemma LeasedAndUnmapped(key: string, spec: Spec) returns (run: seq<State>)
    requires key != ""
    ensures IsRun(Limits(0, 0, 0), run)
    ensures var s := run[|run| - 1];
      && s.pc == map[0 := Own(0, Leased), 1 := CloseWait([0]), 2 := Idle] && s.manager == None && s.sessions == map[]
      && |s.entries| == 1 && s.entries[0].key == key && s.orphaned == {0}
  {
    run := LeasedOnce(key, spec);
    run := CloseOne(Limits(0, 0, 0), run, 1, key);
  }

  /** After closeContext has unmapped a leased entry, the same key can be leased a second time:
      a run that ends with two outstanding leases on one key. */
  lemma CloseAllowsTwoLeases(key: string, spec: Spec) returns (run: seq<State>)
    requires key != ""
    ensures IsRun(Limits(0, 0, 0), run)
    ensures var s := run[|run| - 1];
      && HasLease(s, 0, 0) && HasLease(s, 2, 1) && |s.entries| == 2
      && s.entries[0].key == key && s.entries[1].key == key && s.orphaned == {0}
  {
    run := LeasedAndUnmapped(key, spec);
    ghost var s := run[|run| - 1];
    run := AcquireNew(Limits(0, 0, 0), run, 2, key, spec);
    assert run[|run| - 1].entries[..1] == s.entries;
  }
}
