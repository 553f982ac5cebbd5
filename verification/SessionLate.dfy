/** A lease that outlives a shutdown: how releasing or discarding it late spoils the index. */
module SessionLate {
  import opened Prelude
  import opened SessionSpec
  import opened FileStore
  import opened SessionModel
  import opened SessionRuns

  const DONE := Io(true, true)
  const UNLIMITED := Limits(0, 0, 0)

  /** The disk works, and the runtime knows no recorded session any more but creates new ones. */
  function Forgetful(now: int, sid: string): AcquireEnv {
    AcquireEnv(now, false, DONE, DONE, DONE, true, NotFound, Created(sid), true)
  }

  predicate Usable(p: Pool) {
    p.live == map[] && Indexed(p) && !p.store.value.disk.Garbage?
  }

  /** The record at key, if there is one, is for these settings. */
  predicate Fits(p: Pool, key: string, spec: Spec) {
    Indexed(p) && (key in Records(p.store.value) ==> PersistedSpecMatches(Records(p.store.value)[key].spec, spec))
  }

  lemma CreatesOverUsable(p: Pool, key: string, spec: Spec, now: int, sid: string)
    requires key != "" && Usable(p) && Fits(p, key, spec) && now != ZERO_TIME
    ensures var p' := Acquire(UNLIMITED, p, key, spec, Forgetful(now, sid)).pool;
      && p'.live == map[key := Live(spec, sid, now, now, true)]
      && Indexed(p') && !p'.store.value.disk.Garbage? && Fits(p', key, spec)
  {
    var env := Forgetful(now, sid);
    var entry := Live(spec, sid, now, now, true);
    ReadsRecords(p.store.value, env.load);
    var found := key in Records(p.store.value);
    var store := if found then Delete(p.store.value, key, DONE).value else p.store.value;
    if found {
      PersistenceKept(p.store.value, key, RecordOf(entry, now), DONE);
    }
    PersistenceKept(store, key, RecordOf(entry, now), DONE);
    SaveRefines(store, key, RecordOf(entry, now), DONE);
    assert Acquire(UNLIMITED, p, key, spec, env) == Build(p.(store := Some(store)), key, spec, env, ZERO_TIME);
  }

  /** No lease has been finalised late yet. */
  predicate InTime(ops: seq<Op>) {
    forall i :: 0 <= i < |ops| ==> !ops[i].LateReleaseOp? && !ops[i].LateDiscardOp?
  }

  lemma InTimeIsGuarded(run: seq<State>, ops: seq<Op>)
    requires |run| == |ops| + 1 && InTime(ops)
    ensures GuardedUpTo(run, ops, |ops|)
  {
  }

  /** A session leased, and left behind by a shutdown that keeps the index. */
  lemma LeftBehindByShutdown(key: string, spec: Spec, first: string) returns (run: seq<State>, ops: seq<Op>)
    requires key != ""
    ensures IsRun(UNLIMITED, run, ops) && |ops| == 2 && InTime(ops)
    ensures run[2].late == multiset{Late(key, Live(spec, first, 1, 1, true))}
    ensures Usable(run[2].pool) && Fits(run[2].pool, key, spec)
  {
    var close: string -> DestroyEnv := k => DestroyEnv(true, DONE, true);
    var start := Pool(map[], Some(Store("sessions.json", Document(map[]))));
    run, ops := [State(start, multiset{})], [];
    CreatesOverUsable(start, key, spec, 1, first);
    run, ops := OneMoreOp(run, ops, AcquireOp(key, spec, Forgetful(1, first)));
    LeftBehindOne(run[1].pool, key);
    run, ops := OneMoreOp(run, ops, ShutdownOp(true, false, close));
  }

  /** After the shutdown the session is replaced by a new one, because the runtime has lost it. */
  lemma ReplacedWhileLeased(key: string, spec: Spec, first: string, second: string)
    returns (run: seq<State>, ops: seq<Op>)
    requires key != ""
    ensures IsRun(UNLIMITED, run, ops) && |ops| == 3 && GuardedUpTo(run, ops, 3)
    ensures run[3].late == multiset{Late(key, Live(spec, first, 1, 1, true))}
    ensures run[3].pool.live == map[key := Live(spec, second, 2, 2, true)]
    ensures Indexed(run[3].pool) && !run[3].pool.store.value.disk.Garbage?
  {
    run, ops := LeftBehindByShutdown(key, spec, first);
    CreatesOverUsable(run[2].pool, key, spec, 2, second);
    run, ops := OneMoreOp(run, ops, AcquireOp(key, spec, Forgetful(2, second)));
    InTimeIsGuarded(run, ops);
  }

  lemma LeftBehindOne(p: Pool, key: string)
    requires key in p.live && p.live.Keys == {key} && p.live[key].leased
    ensures LeftBehind(p) == multiset{Late(key, p.live[key])}
  {
    var held := set k | k in p.live && p.live[k].leased :: Late(k, p.live[k]);
    assert held == {Late(key, p.live[key])};
  }

  lemma OneMoreOp(run: seq<State>, ops: seq<Op>, op: Op) returns (run': seq<State>, ops': seq<Op>)
    requires IsRun(UNLIMITED, run, ops) && CanDo(run[|ops|], op)
    ensures IsRun(UNLIMITED, run', ops') && ops' == ops + [op] && run'[..|run|] == run
    ensures run'[|ops'|] == After(UNLIMITED, run[|ops|], op)
  {
    run', ops' := run + [After(UNLIMITED, run[|ops|], op)], ops + [op];
    forall i: nat | i < |ops'| ensures Linked(UNLIMITED, run', ops', i) {
      if i < |ops| {
        assert Linked(UNLIMITED, run, ops, i);
      }
    }
  }

  /** A run that ends with a live session whose record is that of its predecessor: the late release has
      overwritten it. */
  lemma LateReleaseSpoils(key: string, spec: Spec, first: string, second: string)
    returns (run: seq<State>, ops: seq<Op>)
    requires key != "" && first != second
    ensures IsRun(UNLIMITED, run, ops) && |ops| == 4 && ops[3].LateReleaseOp?
    ensures GuardedUpTo(run, ops, 3) && Agreement(run[3].pool) && !Agreement(run[4].pool)
  {
    run, ops := ReplacedWhileLeased(key, spec, first, second);
    RunKeepsAgreement(UNLIMITED, run, ops, 3);
    var entry := Live(spec, first, 1, 1, true);
    LateReleaseKeepsAgreementIff(run[3].pool, key, entry, 3, DONE);
    ReadsRecords(run[3].pool.store.value, DONE);
    ghost var early, earlyOps := run, ops;
    run, ops := OneMoreOp(run, ops, LateReleaseOp(key, entry, 3, DONE));
    assert forall i :: 0 <= i < 4 ==> run[i] == early[i] by { assert run[..4] == early; }
  }

  /** A run that ends with a live session that has no record: the late discard has deleted it. */
  lemma LateDiscardSpoils(key: string, spec: Spec, first: string, second: string)
    returns (run: seq<State>, ops: seq<Op>)
    requires key != ""
    ensures IsRun(UNLIMITED, run, ops) && |ops| == 4 && ops[3].LateDiscardOp?
    ensures GuardedUpTo(run, ops, 3) && Agreement(run[3].pool) && !Agreement(run[4].pool)
  {
    run, ops := ReplacedWhileLeased(key, spec, first, second);
    RunKeepsAgreement(UNLIMITED, run, ops, 3);
    var entry := Live(spec, first, 1, 1, true);
    var env := DestroyEnv(true, DONE, true);
    LateDiscardKeepsAgreementIff(run[3].pool, key, entry, env);
    ReadsRecords(run[3].pool.store.value, DONE);
    ghost var early := run;
    run, ops := OneMoreOp(run, ops, LateDiscardOp(key, entry, env));
    assert forall i :: 0 <= i < 4 ==> run[i] == early[i] by { assert run[..4] == early; }
  }

  // ---------- In time ----------

  lemma LeasedReleased(key: string, spec: Spec, sid: string) returns (run: seq<State>, ops: seq<Op>)
    requires key != ""
    ensures IsRun(UNLIMITED, run, ops) && |ops| == 2 && InTime(ops) && GrantsAt(UNLIMITED, run, ops, 0, key)
    ensures run[1].pool.live == map[key := Live(spec, sid, 1, 1, true)]
    ensures run[2].pool.live == map[key := Live(spec, sid, 1, 1, false)]
  {
    var start := Pool(map[], Some(Store("sessions.json", Document(map[]))));
    run, ops := [State(start, multiset{})], [];
    CreatesOverUsable(start, key, spec, 1, sid);
    run, ops := OneMoreOp(run, ops, AcquireOp(key, spec, Forgetful(1, sid)));
    run, ops := OneMoreOp(run, ops, ReleaseOp(key, 1, DONE));
  }

  /** An ordinary run: a session is leased, released in time and leased again. */
  lemma LeasedReleasedLeased(key: string, spec: Spec, sid: string) returns (run: seq<State>, ops: seq<Op>)
    requires key != ""
    ensures LeasedTwice(UNLIMITED, run, ops, 0, 2, key)
  {
    var early, earlyOps := LeasedReleased(key, spec, sid);
    run, ops := OneMoreOp(early, earlyOps, AcquireOp(key, spec, Forgetful(2, sid)));
    InTimeIsGuarded(run, ops);
    assert run[0] == early[0] && run[1] == early[1] && run[2] == early[2];
    assert ops[0] == earlyOps[0] && ops[1] == earlyOps[1];
  }
}
