/** The expiry sweep beside the other threads: it looks at the last use of an entry first and tries the lock
    afterwards, and a lease may be given back in between. */
module LeaseSweep {
  import opened Prelude
  import opened SessionSpec
  import opened LeaseProtocol
  import opened LeaseEffects
  import opened LeaseInvariant
  import opened LeaseTheorems

  /** Trying the lock takes the entry out of the map exactly if the lock is free; in particular an entry that is
      being created or is leased stays, however old it looked. */
  lemma SweepSparesHeldEntries(lim: Limits, s: State, t: Tid)
    requires Inv(lim, s) && t in s.pc && EnabledSweep(s, s.pc[t], SweepTry)
    ensures var e := s.pc[t].looked.value; var s' := ApplySweep(lim, s, t, SweepTry);
      && Mapped(s, e)
      && (Mapped(s', e) <==> s.entries[e].owner != None)
      && (Mapped(s', e) ==> s'.sessions == s.sessions && s'.entries == s.entries)
      && (!Mapped(s', e) ==> s'.sessions == s.sessions - {s.entries[e].key} && s'.entries[e].owner == Some(t))
      && (forall h :: h in s.pc && Holds(s.pc[h], e) ==> Mapped(s', e))
      && (!s.entries[e].ready ==> Mapped(s', e))
  {
    var e := s.pc[t].looked.value;
    assert SweepOk(s, s.pc[t]);
    if !s.entries[e].ready {
      assert Holds(s.pc[s.entries[e].creator], e);
    }
  }

  // ---------- From the look to the lock ----------

  /** A look at an entry that is stale. */
  ghost predicate LooksAt(lim: Limits, s: State, s': State, t: Tid, e: Eid) {
    && t in s.pc && s.pc[t].Sweeping? && s.pc[t].looked == None && e < |s.entries|
    && t in s'.pc && s'.pc[t].Sweeping? && s'.pc[t].looked == Some(e) && s'.pc[t].now == s.pc[t].now
    && s'.entries == s.entries && s'.manager == s.manager
    && s.pc[t].now - s.entries[e].lastUsed >= lim.ttl
  }

  /** A thread that has an entry under its eyes got there by looking. */
  lemma LookedComesFromLook(lim: Limits, s: State, s': State, st: Step, t: Tid)
    requires StepBy(lim, s, s', t, st) && t in s'.pc && s'.pc[t].Sweeping? && s'.pc[t].looked.Some?
    ensures s.pc[t] == s'.pc[t] || LooksAt(lim, s, s', t, s'.pc[t].looked.value)
  {
    assert st.Sweep? || st.Tick?;
  }

  /** After state j and up to state i thread t stands where it stands at i. */
  ghost predicate Steady(run: seq<State>, j: nat, i: nat, t: Tid)
    requires j <= i < |run|
  {
    t in run[i].pc && forall m :: j < m <= i ==> t in run[m].pc && run[m].pc[t] == run[i].pc[t]
  }

  lemma LookedStep(lim: Limits, run: seq<State>, i: nat, t: Tid)
    requires IsRun(lim, run) && i + 1 < |run|
    requires t in run[i + 1].pc && run[i + 1].pc[t].Sweeping? && run[i + 1].pc[t].looked.Some?
    ensures t in run[i].pc
    ensures run[i].pc[t] == run[i + 1].pc[t] || LooksAt(lim, run[i], run[i + 1], t, run[i + 1].pc[t].looked.value)
  {
    assert Linked(lim, run, i);
    var u, st :| StepBy(lim, run[i], run[i + 1], u, st);
    RunKeepsInv(lim, run, i);
    StepKeepsInv(lim, run[i], run[i + 1]);
    if u == t {
      LookedComesFromLook(lim, run[i], run[i + 1], st, t);
    } else {
      OthersStay(lim, run[i], run[i + 1], u, st, t);
    }
  }

  lemma {:induction false} LookedAtStale(lim: Limits, run: seq<State>, i: nat, t: Tid) returns (j: nat)
    requires IsRun(lim, run) && i < |run| && t in run[i].pc && run[i].pc[t].Sweeping? && run[i].pc[t].looked.Some?
    ensures j < i && LooksAt(lim, run[j], run[j + 1], t, run[i].pc[t].looked.value)
    ensures Steady(run, j, i, t)
    decreases i
  {
    assert i > 0;
    LookedStep(lim, run, i - 1, t);
    if run[i - 1].pc[t] == run[i].pc[t] {
      j := LookedAtStale(lim, run, i - 1, t);
    } else {
      j := i - 1;
    }
  }

  /** No thread has e for its own: it is being neither created nor leased nor given back. */
  ghost predicate NobodyOwns(s: State, e: Eid) {
    forall u :: u in s.pc && s.pc[u].Own? ==> s.pc[u].e != e
  }

  /** While a sweep holds the manager lock, nobody can make a free entry its own, and so nobody touches it. */
  lemma FreeIsLeftAlone(lim: Limits, s: State, s': State, u: Tid, st: Step, t: Tid, e: Eid)
    requires ManagerMatches(s) && StepBy(lim, s, s', u, st) && t in s.pc && t in s'.pc
    requires s.pc[t].Sweeping? && s'.pc[t] == s.pc[t]
    requires e < |s.entries| && NobodyOwns(s, e)
    ensures e < |s'.entries| && NobodyOwns(s', e) && s'.entries[e].lastUsed == s.entries[e].lastUsed
  {
    assert HoldsManager(s.pc[t]);
    assert u != t ==> !HoldsManager(s.pc[u]);
  }

  lemma FreeForOneStep(lim: Limits, run: seq<State>, m: nat, t: Tid, e: Eid)
    requires IsRun(lim, run) && m + 1 < |run| && t in run[m].pc && t in run[m + 1].pc
    requires run[m].pc[t].Sweeping? && run[m + 1].pc[t] == run[m].pc[t]
    requires e < |run[m].entries| && NobodyOwns(run[m], e)
    ensures e < |run[m + 1].entries| && NobodyOwns(run[m + 1], e)
    ensures run[m + 1].entries[e].lastUsed == run[m].entries[e].lastUsed
  {
    RunKeepsInv(lim, run, m);
    assert Linked(lim, run, m);
    var u, st :| StepBy(lim, run[m], run[m + 1], u, st);
    FreeIsLeftAlone(lim, run[m], run[m + 1], u, st, t, e);
  }

  lemma FreeIsNobodys(lim: Limits, s: State, e: Eid)
    requires Inv(lim, s) && e < |s.entries| && s.entries[e].owner == None
    ensures NobodyOwns(s, e)
  {
    forall u | u in s.pc && s.pc[u].Own? ensures s.pc[u].e != e {
      assert Holds(s.pc[u], s.pc[u].e);
    }
  }

  lemma SteadyAt(run: seq<State>, j: nat, m: nat, i: nat, t: Tid, e: Eid)
    requires j < m < i < |run| && Steady(run, j, i, t)
    requires run[j + 1].pc[t].Sweeping?
    ensures t in run[m].pc && t in run[m + 1].pc && run[m].pc[t].Sweeping? && run[m + 1].pc[t] == run[m].pc[t]
  {
    assert run[j + 1].pc[t] == run[i].pc[t];
  }

  ghost predicate Untouched(s: State, s': State, e: Eid) {
    e < |s.entries| && e < |s'.entries| && NobodyOwns(s', e) && s'.entries[e].lastUsed == s.entries[e].lastUsed
  }

  lemma FreeAfterLook(lim: Limits, run: seq<State>, j: nat, t: Tid, e: Eid)
    requires IsRun(lim, run) && j + 1 < |run| && LooksAt(lim, run[j], run[j + 1], t, e)
    requires run[j].entries[e].owner == None
    ensures Untouched(run[j], run[j + 1], e)
  {
    RunKeepsInv(lim, run, j + 1);
    FreeIsNobodys(lim, run[j + 1], e);
  }

  lemma {:induction false} FreeAtLookStaysUntouched(lim: Limits, run: seq<State>, j: nat, m: nat, i: nat, t: Tid,
      e: Eid)
    requires IsRun(lim, run) && j < m <= i < |run| && LooksAt(lim, run[j], run[j + 1], t, e)
    requires Steady(run, j, i, t)
    requires run[j].entries[e].owner == None
    ensures Untouched(run[j], run[m], e)
    decreases m
  {
    if m == j + 1 {
      FreeAfterLook(lim, run, j, t, e);
    } else {
      FreeAtLookStaysUntouched(lim, run, j, m - 1, i, t, e);
      SteadyAt(run, j, m - 1, i, t, e);
      FreeForOneStep(lim, run, m - 1, t, e);
    }
  }

  lemma TryTakesFree(lim: Limits, run: seq<State>, i: nat, t: Tid)
    requires IsRun(lim, run) && i + 1 < |run| && StepBy(lim, run[i], run[i + 1], t, Sweep(SweepTry))
    ensures var e := run[i].pc[t].looked.value;
      e < |run[i].entries| && (Mapped(run[i + 1], e) <==> run[i].entries[e].owner != None)
  {
    RunKeepsInv(lim, run, i);
    SweepSparesHeldEntries(lim, run[i], t);
  }

  /** In every run: an entry taken out by the sweep was stale when it was looked at, at state j. It may have been
      used since, and is then taken out nevertheless; this happens exactly if it was held when it was looked at,
      its holder has refreshed it, and has given it back before the lock is tried. */
  lemma FreshIsReapedIff(lim: Limits, run: seq<State>, i: nat, t: Tid) returns (j: nat)
    requires IsRun(lim, run) && i + 1 < |run| && StepBy(lim, run[i], run[i + 1], t, Sweep(SweepTry))
    ensures var e := run[i].pc[t].looked.value;
      && j < i && LooksAt(lim, run[j], run[j + 1], t, e) && run[j].pc[t].now == run[i].pc[t].now
      && e < |run[i].entries|
      && var reaped := !Mapped(run[i + 1], e);
      var recent := run[i].pc[t].now - run[i].entries[e].lastUsed < lim.ttl;
      && (reaped <==> run[i].entries[e].owner == None)
      && (reaped && recent <==> recent && run[j].entries[e].owner.Some? && run[i].entries[e].owner == None)
  {
    TryTakesFree(lim, run, i, t);
    j := LookedAtStale(lim, run, i, t);
    var e := run[i].pc[t].looked.value;
    assert run[j + 1].pc[t] == run[i].pc[t];
    if run[j].entries[e].owner == None {
      FreeAtLookStaysUntouched(lim, run, j, i, i, t, e);
    }
  }

  // ---------- A session reaped right after it was used ----------

  /** Thread t begins a sweep and looks at the only entry. */
  ghost function LookAtOnly(lim: Limits, run: seq<State>, t: Tid, key: string): (longer: seq<State>)
    requires IsRun(lim, run) && lim.ttl > 0
    requires var s := run[|run| - 1];
      && t in s.pc && s.pc[t].Idle? && s.manager == None && s.sessions == map[key := 0] && |s.entries| == 1
      && s.clock - s.entries[0].lastUsed >= lim.ttl
    ensures IsRun(lim, longer)
    ensures var s, s' := run[|run| - 1], longer[|longer| - 1];
      s' == s.(manager := Some(t), pc := s.pc[t := Sweeping(s.clock, {}, Some(0), {})])
  {
    var s := run[|run| - 1];
    var r1 := Do(lim, run, t, Begin(BeginSweep));
    var r2 := Do(lim, r1, t, LockManager);
    var s2 := r2[|r2| - 1];
    assert s2.pc == s.pc[t := Sweeping(s.clock, s.sessions.Keys, None, {})] && s.sessions.Keys == {key};
    assert s2 == s.(manager := Some(t), pc := s2.pc);
    assert {key} - {key} == {};
    assert s2.pc[t := Sweeping(s.clock, {}, Some(0), {})] == s.pc[t := Sweeping(s.clock, {}, Some(0), {})];
    Do(lim, r2, t, Sweep(SweepLook(key)))
  }

  /** Thread t gives its lease on entry 0 back. */
  ghost function GiveBack(lim: Limits, run: seq<State>, t: Tid): (longer: seq<State>)
    requires IsRun(lim, run)
    requires var s := run[|run| - 1]; |s.entries| == 1 && HasLease(s, t, 0)
    ensures IsRun(lim, longer)
    ensures var s, s' := run[|run| - 1], longer[|longer| - 1];
      s' == s.(pc := s.pc[t := Idle], entries := [s.entries[0].(lastUsed := s.clock, owner := None)])
  {
    var s := run[|run| - 1];
    var r1 := Do(lim, run, t, Finish(BeginRelease));
    assert r1[|r1| - 1].pc[t := Idle] == s.pc[t := Idle];
    Do(lim, r1, t, Finish(ReleaseUnlock))
  }

  /** A lease taken at time 0 and still out at time 20. */
  ghost function LeasedAndAged(lim: Limits, key: string, spec: Spec): (run: seq<State>)
    requires key != "" && lim.maxActive <= 0 && lim.maxPerNamespace <= 0
    ensures IsRun(lim, run)
    ensures var s := run[|run| - 1];
      && s.pc == map[0 := Own(0, Leased), 1 := Idle]
      && s.manager == None && s.sessions == map[key := 0] && s.clock == 20
      && |s.entries| == 1 && s.entries[0].key == key && s.entries[0].lastUsed == 0
  {
    var start := State(0, None, map[], [], {}, {}, map[0 := Idle, 1 := Idle]);
    var leased := AcquireNew(lim, [start], 0, key, spec);
    Do(lim, leased, 1, Tick(20))
  }

  /** A session leased since time 0 and given back at time 20, just after the sweep has looked at it, is taken out
      by that sweep although the idle period of 10 begins only then: a run that ends so. */
  lemma ReleasedThenReaped(key: string, spec: Spec) returns (run: seq<State>)
    requires key != ""
    ensures IsRun(Limits(10, 0, 0), run)
    ensures var s := run[|run| - 1];
      && s.sessions == map[] && |s.entries| == 1 && s.entries[0].key == key
      && s.clock == 20 && s.entries[0].lastUsed == 20
      && 1 in s.pc && s.pc[1].Sweeping? && s.pc[1].now == 20 && 0 in s.pc[1].stale
  {
    var lim := Limits(10, 0, 0);
    run := LeasedAndAged(lim, key, spec);
    run := LookAtOnly(lim, run, 1, key);
    run := GiveBack(lim, run, 0);
    run := Do(lim, run, 1, Sweep(SweepTry));
    assert map[key := 0] - {key} == map[];
  }
}
