/** How long a session lasts: expiry in memory, and resumption after the process has been restarted. */
module SessionLifetime {
  import opened Prelude
  import opened SessionSpec
  import opened FileStore
  import opened SessionModel
  import opened SessionRuns

  /** The idle period is over; it never is if none is configured. */
  predicate Expired(lim: Limits, since: int, now: int) {
    lim.ttl > 0 && now - since >= lim.ttl
  }

  /** The time at which an operation uses the session of k, if it does. */
  function UseAt(lim: Limits, p: Pool, op: Op, k: string): Option<int> {
    match op
    case AcquireOp(key, spec, env) =>
      if key == k && Acquire(lim, p, key, spec, env).result.Ok? then Some(env.now) else None
    case ReleaseOp(key, now, _) => if key == k then Some(now) else None
    case _ => None
  }

  /** The last time the session of k was leased or given back before operation j. */
  ghost function LastUse(lim: Limits, run: seq<State>, ops: seq<Op>, j: nat, k: string): int
    requires j <= |ops| && |run| == |ops| + 1
  {
    if j == 0 then ZERO_TIME
    else
      var use := UseAt(lim, run[j - 1].pool, ops[j - 1], k);
      if use.Some? then use.value else LastUse(lim, run, ops, j - 1, k)
  }

  lemma AcquireUses(lim: Limits, p: Pool, key: string, spec: Spec, env: AcquireEnv)
    requires key != ""
    ensures var r := Acquire(lim, p, key, spec, env);
      && (r.result.Ok? ==> key in r.pool.live && r.pool.live[key].lastUsed == env.now)
      && (r.result.Err? ==> r.pool.live == p.live)
  {
    if key !in p.live && CapacityError(lim, p.live.Keys, key) == None {
      MissingLease(lim, p, key, spec, env);
      MissingUses(lim, p, key, spec, env);
    }
  }

  lemma MissingUses(lim: Limits, p: Pool, key: string, spec: Spec, env: AcquireEnv)
    ensures var r := AcquireMissing(lim, p, key, spec, env);
      r.result.Ok? ==> key in r.pool.live && r.pool.live[key].lastUsed == env.now
  {
  }

  lemma AcquireUsesOnly(lim: Limits, p: Pool, key: string, spec: Spec, env: AcquireEnv, k: string)
    requires k != key
    ensures var p' := Acquire(lim, p, key, spec, env).pool;
      k in p'.live ==> k in p.live && p'.live[k] == p.live[k]
  {
    if key != "" && key !in p.live && CapacityError(lim, p.live.Keys, key) == None {
      MissingLease(lim, p, key, spec, env);
    }
  }

  lemma OpUses(lim: Limits, p: Pool, op: Op, k: string)
    requires Enabled(p, op) && k != "" && k in Apply(lim, p, op).live
    ensures var use := UseAt(lim, p, op, k); var p' := Apply(lim, p, op);
      if use.Some? then p'.live[k].lastUsed == use.value else k in p.live && p'.live[k].lastUsed == p.live[k].lastUsed
  {
    if op.AcquireOp? {
      if op.key == k {
        AcquireUses(lim, p, k, op.spec, op.acquire);
      } else {
        AcquireUsesOnly(lim, p, op.key, op.spec, op.acquire, k);
      }
    }
  }

  lemma {:induction false} LastUsedIs(lim: Limits, run: seq<State>, ops: seq<Op>, j: nat, k: string)
    requires IsRun(lim, run, ops) && j < |run| && k != "" && k in run[j].pool.live
    ensures run[j].pool.live[k].lastUsed == LastUse(lim, run, ops, j, k)
    decreases j
  {
    if j > 0 {
      assert Linked(lim, run, ops, j - 1);
      OpUses(lim, run[j - 1].pool, ops[j - 1], k);
      if UseAt(lim, run[j - 1].pool, ops[j - 1], k) == None {
        LastUsedIs(lim, run, ops, j - 1, k);
      }
    }
  }

  /** In every run of whole operations a sweep ends a live session exactly if it is not leased and the idle period
      has gone by since it was last leased or given back. */
  lemma ReapedIff(lim: Limits, run: seq<State>, ops: seq<Op>, j: nat, k: string)
    requires IsRun(lim, run, ops) && j < |ops| && ops[j].ExpireOp? && k != "" && k in run[j].pool.live
    ensures k !in run[j + 1].pool.live <==>
      !run[j].pool.live[k].leased && Expired(lim, LastUse(lim, run, ops, j, k), ops[j].now)
    ensures k in run[j + 1].pool.live ==> run[j + 1].pool.live[k] == run[j].pool.live[k]
  {
    LastUsedIs(lim, run, ops, j, k);
    assert Linked(lim, run, ops, j);
  }

  /** Disk and runtime do what they are asked to, and the runtime still knows the session. */
  predicate Cooperative(env: AcquireEnv) {
    && env.load.readOk && env.delete == Io(true, true) && env.save == Io(true, true)
    && env.canResume && env.resume == Resumed && env.create.Created? && env.upstreamDeletes
  }

  /** What is left of a session that was released and whose gateway was then shut down to be restarted. */
  lemma ReleasedRecord(p: Pool, key: string, released: int, save: Io, ctxEnded: bool, env: string -> DestroyEnv)
    requires key in p.live && p.store.Some? && Persistent(p.store.value)
    requires Save(p.store.value, key, RecordOf(p.live[key], released), save).Ok?
    ensures var p' := Close(Release(p, key, released, save), true, ctxEnded, env);
      && p'.live == map[] && p'.store.Some? && Persistent(p'.store.value) && !p'.store.value.disk.Garbage?
      && key in Records(p'.store.value) && Records(p'.store.value)[key] == Erased(RecordOf(p.live[key], released))
  {
    var entry := p.live[key].(lastUsed := released, leased := false);
    assert RecordOf(entry, released) == RecordOf(p.live[key], released);
    SaveRefines(p.store.value, key, RecordOf(entry, released), save);
  }

  lemma RoomInEmptyPool(lim: Limits, key: string)
    ensures CapacityError(lim, {}, key) == None
  {
    assert InNamespace({}, SessionKeys.SessionNamespace(key)) == {};
  }

  /** Release, shutdown keeping the index, restart, and a request with the same settings but possibly other
      credentials: the client gets its session back, with its creation time, exactly if the idle period is not over
      since the release; otherwise the old session is deleted and a new one made. */
  lemma RestartResumesIff(lim: Limits, p: Pool, key: string, released: int, save: Io, ctxEnded: bool,
      close: string -> DestroyEnv, spec: Spec, env: AcquireEnv)
    requires key != "" && key in p.live && p.store.Some? && Persistent(p.store.value)
    requires Save(p.store.value, key, RecordOf(p.live[key], released), save).Ok?
    requires AgreesExceptSecret(p.live[key].spec, spec) && Cooperative(env) && p.live[key].createdAt != ZERO_TIME
    ensures var r := Acquire(lim, Close(Release(p, key, released, save), true, ctxEnded, close), key, spec, env);
      && r.result.Ok? && key in r.pool.live && r.pool.live[key].spec == spec
      && (r.result.value.created <==> Expired(lim, released, env.now))
      && (!r.result.value.created ==>
            r.result.value.sessionID == p.live[key].sessionID && r.pool.live[key].createdAt == p.live[key].createdAt)
      && (r.result.value.created ==> CallDelete(p.live[key].sessionID, true) in r.calls)
  {
    ReleasedRecord(p, key, released, save, ctxEnded, close);
    RoomInEmptyPool(lim, key);
    StoredSpecAcceptsIff(p.live[key].spec, spec);
    var p' := Close(Release(p, key, released, save), true, ctxEnded, close);
    var record := Erased(RecordOf(p.live[key], released));
    ReadsRecords(p'.store.value, env.load);
    assert Acquire(lim, p', key, spec, env) == AcquireStored(lim, p', key, spec, env, record);
    StoredGrant(lim, p', key, spec, env, record);
  }

  lemma StoredGrant(lim: Limits, p: Pool, key: string, spec: Spec, env: AcquireEnv, record: StoredSession)
    requires p.store.Some? && Persistent(p.store.value) && !p.store.value.disk.Garbage? && Cooperative(env)
    requires PersistedSpecMatches(record.spec, spec) && record.createdAt != ZERO_TIME
    ensures var r := AcquireStored(lim, p, key, spec, env, record);
      && r.result.Ok? && key in r.pool.live && r.pool.live[key].spec == spec
      && (r.result.value.created <==> Expired(lim, record.updatedAt, env.now))
      && (!r.result.value.created ==>
            r.result.value.sessionID == record.sessionID && r.pool.live[key].createdAt == record.createdAt)
      && (r.result.value.created ==> CallDelete(record.sessionID, true) in r.calls)
  {
    if Expired(lim, record.updatedAt, env.now) {
      FinishSaves(p.(store := DeleteFrom(p.store, key, env.delete).value), key, spec, env, env.create.sessionID,
        ZERO_TIME, true, [CallCreate(env.create.sessionID)]);
    } else {
      FinishSaves(p, key, spec, env, record.sessionID, record.createdAt, false, [CallResume(record.sessionID)]);
    }
  }

  lemma FinishSaves(p: Pool, key: string, spec: Spec, env: AcquireEnv, sid: string, createdAt: int, created: bool,
      calls: seq<Call>)
    requires p.store.Some? && !p.store.value.disk.Garbage? && env.save == Io(true, true)
    ensures var r := Finish(p, key, spec, env, sid, createdAt, created, calls);
      && r.result == Ok(Grant(sid, true, created)) && r.calls == calls && key in r.pool.live
      && r.pool.live[key] == Live(spec, sid, if createdAt != ZERO_TIME then createdAt else env.now, env.now, true)
  {
  }
}
