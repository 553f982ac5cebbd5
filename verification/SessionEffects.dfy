/** What each operation of the session manager comes to, told in terms of the live sessions, the records on disk and the
    requests to the runtime, without the functions that compute it. */
module SessionEffects {
  import opened Prelude
  import opened SessionSpec
  import opened FileStore
  import opened SessionModel
  import SessionKeys

  // ---------- The disk ----------

  function RecordsOf(p: Pool): map<string, StoredSession> {
    if p.store.Some? then Records(p.store.value) else map[]
  }

  /** There is an index that keeps nothing, or none at all: nothing can go wrong with it. */
  predicate Unkept(p: Pool) {
    p.store == None || p.store.value.path == ""
  }

  /** What goes wrong when the index is read; a file that does not exist yet need not be readable. */
  function ReadFault(p: Pool, io: Io): Option<StoreError> {
    if Unkept(p) || p.store.value.disk.Missing? then None
    else if !io.readOk then Some(ReadFailed)
    else if p.store.value.disk.Garbage? then Some(Malformed)
    else None
  }

  function SaveFault(p: Pool, io: Io): Option<StoreError> {
    if ReadFault(p, io).Some? then ReadFault(p, io)
    else if !Unkept(p) && !io.writeOk then Some(WriteFailed)
    else None
  }

  /** A record that is not there need not be deleted. */
  function DeleteFault(p: Pool, key: string, io: Io): Option<StoreError> {
    if ReadFault(p, io).Some? then ReadFault(p, io)
    else if !Unkept(p) && key in RecordsOf(p) && !io.writeOk then Some(WriteFailed)
    else None
  }

  /** The records once one of them has been written; an index that is not kept has none. */
  function Written(p: Pool, records: map<string, StoredSession>, key: string, record: StoredSession)
      : map<string, StoredSession>
  {
    if Unkept(p) then records else records[key := record]
  }

  lemma LoadIs(p: Pool, key: string, io: Io)
    requires p.store.Some?
    ensures Load(p.store.value, key, io) ==
      if ReadFault(p, io).Some? then Err(ReadFault(p, io).value)
      else Ok(if key in RecordsOf(p) then Some(RecordsOf(p)[key]) else None)
  {
    ReadsRecords(p.store.value, io);
  }

  lemma SaveIs(p: Pool, key: string, record: StoredSession, io: Io)
    requires record.spec == SpecForStorage(record.spec)
    ensures var saved := SaveTo(p.store, key, record, io);
      if SaveFault(p, io).Some? then saved == Err(SaveFault(p, io).value)
      else saved.Ok? && RecordsOf(p.(store := saved.value)) == Written(p, RecordsOf(p), key, record)
  {
    if p.store.Some? {
      ReadsRecords(p.store.value, io);
      SaveRefines(p.store.value, key, record, io);
      assert Erased(record) == record;
    }
  }

  /** Deleting a record does not change what can go wrong afterwards. */
  lemma DeleteIs(p: Pool, key: string, io: Io, save: Io)
    ensures var deleted := DeleteFrom(p.store, key, io);
      if DeleteFault(p, key, io).Some? then deleted == Err(DeleteFault(p, key, io).value)
      else
        && deleted.Ok? && RecordsOf(p.(store := deleted.value)) == RecordsOf(p) - {key}
        && SaveFault(p.(store := deleted.value), save) == SaveFault(p, save)
        && (Unkept(p.(store := deleted.value)) <==> Unkept(p))
  {
    if p.store.Some? {
      ReadsRecords(p.store.value, io);
      DeleteRefines(p.store.value, key, io);
    }
  }

  // ---------- Starting a session ----------

  /** The session is live, leased and on disk, over the given records; or it is not, because it cannot be recorded. */
  ghost predicate Lodged(p: Pool, records: map<string, StoredSession>, key: string, entry: Live, created: bool,
      save: Io, r: Acquired)
  {
    if SaveFault(p, save).Some? then Turned(p, records, StoreFailure(SaveFault(p, save).value), r)
    else
      && r.result == Ok(Grant(entry.sessionID, true, created))
      && r.pool.live == p.live[key := entry] && entry.leased
      && RecordsOf(r.pool) == Written(p, records, key,
           StoredSession(entry.sessionID, SpecForStorage(entry.spec), entry.createdAt, entry.lastUsed))
  }

  /** The request is refused; the live sessions are as they were, and these are the records. */
  ghost predicate Turned(p: Pool, records: map<string, StoredSession>, error: AcquireError, r: Acquired) {
    r.result == Err(error) && r.pool.live == p.live && RecordsOf(r.pool) == records
  }

  /** A new session is asked for, after the given requests. */
  ghost predicate Anew(p: Pool, records: map<string, StoredSession>, key: string, spec: Spec, createdAt: int,
      env: AcquireEnv, before: seq<Call>, r: Acquired)
  {
    match env.create
    case CreateFailed => Turned(p, records, UpstreamFailure, r) && r.calls == before
    case Created(sid) =>
      && r.calls == before + [CallCreate(sid)]
      && Lodged(p, records, key, Live(spec, sid, createdAt, env.now, true), true, env.save, r)
  }

  lemma FinishLodges(p: Pool, key: string, spec: Spec, env: AcquireEnv, sid: string, createdAt: int, created: bool,
      calls: seq<Call>)
    ensures var r := Finish(p, key, spec, env, sid, createdAt, created, calls);
      && r.calls == calls
      && Lodged(p, RecordsOf(p), key,
           Live(spec, sid, if createdAt == ZERO_TIME then env.now else createdAt, env.now, true), created, env.save, r)
  {
    var entry := Live(spec, sid, if createdAt == ZERO_TIME then env.now else createdAt, env.now, true);
    SaveIs(p, key, RecordOf(entry, env.now), env.save);
  }

  lemma BuildsAnew(p: Pool, key: string, spec: Spec, env: AcquireEnv, createdAt: int)
    ensures Anew(p, RecordsOf(p), key, spec, if createdAt == ZERO_TIME then env.now else createdAt, env, [],
      Build(p, key, spec, env, createdAt))
  {
    if env.create.Created? {
      FinishLodges(p, key, spec, env, env.create.sessionID, createdAt, true, [CallCreate(env.create.sessionID)]);
    }
  }

  /** Building anew once the record has been deleted. */
  lemma RebuildsAnew(p: Pool, key: string, spec: Spec, env: AcquireEnv)
    requires DeleteFault(p, key, env.delete) == None
    ensures DeleteFrom(p.store, key, env.delete).Ok?
    ensures Anew(p, RecordsOf(p) - {key}, key, spec, env.now, env, [],
      Build(p.(store := DeleteFrom(p.store, key, env.delete).value), key, spec, env, ZERO_TIME))
  {
    DeleteIs(p, key, env.delete, env.save);
    BuildsAnew(p.(store := DeleteFrom(p.store, key, env.delete).value), key, spec, env, ZERO_TIME);
  }

  // ---------- Acquire, case by case ----------

  /** Without a key the session is not kept: nothing changes but that the runtime has one more. */
  lemma WithoutKey(lim: Limits, p: Pool, spec: Spec, env: AcquireEnv)
    ensures var r := Acquire(lim, p, "", spec, env);
      && r.pool == p
      && (env.create.CreateFailed? ==> r.result == Err(UpstreamFailure) && r.calls == [])
      && (env.create.Created? ==>
           && r.result == Ok(Grant(env.create.sessionID, false, true))
           && r.calls == [CallCreate(env.create.sessionID)])
  {
  }

  /** At the key of a live session: other settings are refused whoever has the lease, equal ones as long as another
      request has it; otherwise the session is leased as it is, and nothing but its last use changes. */
  lemma AtLiveKey(lim: Limits, p: Pool, key: string, spec: Spec, env: AcquireEnv)
    requires key != "" && key in p.live
    ensures var r := Acquire(lim, p, key, spec, env); var entry := p.live[key];
      && r.calls == [] && r.pool.store == p.store
      && (r.result == Err(SpecMismatch) <==> spec != entry.spec)
      && (r.result == Err(ContextEnded) <==> spec == entry.spec && (env.ctxEnded || entry.leased))
      && (r.result.Ok? <==> spec == entry.spec && !env.ctxEnded && !entry.leased)
      && (r.result.Err? ==> r.pool == p)
      && (r.result.Ok? ==>
           && r.result.value == Grant(entry.sessionID, true, false)
           && r.pool.live == p.live[key := Live(spec, entry.sessionID, entry.createdAt, env.now, true)])
  {
  }

  function OfNamespace(p: Pool, namespace: string): set<string> {
    set k | k in p.live && SessionKeys.SessionNamespace(k) == namespace
  }

  predicate FullInAll(lim: Limits, p: Pool) {
    lim.maxActive > 0 && |p.live| >= lim.maxActive
  }

  predicate FullInNamespace(lim: Limits, p: Pool, key: string) {
    lim.maxPerNamespace > 0 && |OfNamespace(p, SessionKeys.SessionNamespace(key))| >= lim.maxPerNamespace
  }

  predicate Room(lim: Limits, p: Pool, key: string) {
    !FullInAll(lim, p) && !FullInNamespace(lim, p, key)
  }

  /** A request for one more session is refused for want of room exactly if a limit has been reached, the one for all
      sessions before the one for the namespace, and then nothing changes. */
  lemma AtLimit(lim: Limits, p: Pool, key: string, spec: Spec, env: AcquireEnv)
    requires key != "" && key !in p.live
    ensures var r := Acquire(lim, p, key, spec, env);
      && (r.result == Err(TooManySessions) <==> FullInAll(lim, p))
      && (r.result == Err(TooManySessionsForNamespace) <==> !FullInAll(lim, p) && FullInNamespace(lim, p, key))
      && (!Room(lim, p, key) ==> r.pool == p && r.calls == [])
  {
    RoomIs(lim, p, key);
    if Room(lim, p, key) {
      MissingIsNoLimit(lim, p, key, spec, env);
    }
  }

  lemma RoomIs(lim: Limits, p: Pool, key: string)
    ensures CapacityError(lim, p.live.Keys, key) ==
      if FullInAll(lim, p) then Some(TooManySessions)
      else if FullInNamespace(lim, p, key) then Some(TooManySessionsForNamespace) else None
  {
    var namespace := SessionKeys.SessionNamespace(key);
    assert InNamespace(p.live.Keys, namespace) == OfNamespace(p, namespace);
    assert |p.live.Keys| == |p.live|;
  }

  lemma MissingIsNoLimit(lim: Limits, p: Pool, key: string, spec: Spec, env: AcquireEnv)
    ensures var result := AcquireMissing(lim, p, key, spec, env).result;
      result != Err(TooManySessions) && result != Err(TooManySessionsForNamespace)
  {
  }

  /** There is room for one more session at the key, and its record, if there is one, can be read. */
  predicate Vacant(lim: Limits, p: Pool, key: string, load: Io) {
    key != "" && key !in p.live && Room(lim, p, key) && ReadFault(p, load) == None
  }

  /** A damaged index refuses every key that is not live, and stays as it is. */
  lemma Unreadable(lim: Limits, p: Pool, key: string, spec: Spec, env: AcquireEnv)
    requires key != "" && key !in p.live && Room(lim, p, key) && ReadFault(p, env.load).Some?
    ensures Acquire(lim, p, key, spec, env) == Acquired(p, Err(StoreFailure(ReadFault(p, env.load).value)), [])
  {
    RoomIs(lim, p, key);
    LoadIs(p, key, env.load);
  }

  lemma VacantIsMissing(lim: Limits, p: Pool, key: string, spec: Spec, env: AcquireEnv)
    requires Vacant(lim, p, key, env.load)
    ensures Acquire(lim, p, key, spec, env) ==
      if key in RecordsOf(p) then AcquireStored(lim, p, key, spec, env, RecordsOf(p)[key])
      else Build(p, key, spec, env, ZERO_TIME)
  {
    RoomIs(lim, p, key);
    if p.store.Some? {
      LoadIs(p, key, env.load);
    }
  }

  /** Without a record a new session is asked for, and created now. */
  lemma WithoutRecord(lim: Limits, p: Pool, key: string, spec: Spec, env: AcquireEnv)
    requires Vacant(lim, p, key, env.load) && key !in RecordsOf(p)
    ensures Anew(p, RecordsOf(p), key, spec, env.now, env, [], Acquire(lim, p, key, spec, env))
  {
    VacantIsMissing(lim, p, key, spec, env);
    BuildsAnew(p, key, spec, env, ZERO_TIME);
  }

  lemma AgreesIs(p: Pool, key: string, spec: Spec)
    requires key in RecordsOf(p)
    ensures PersistedSpecMatches(RecordsOf(p)[key].spec, spec) <==> AgreesExceptSecret(RecordsOf(p)[key].spec, spec)
  {
    RecordsAreErased(p.store.value, key);
    StoredSpecAcceptsIff(RecordsOf(p)[key].spec, spec);
  }

  /** The record of a session with other settings goes, and so does that session, and the request is refused; if the
      record cannot be deleted, everything stays as it is and that is the answer. */
  lemma WithOtherSettings(lim: Limits, p: Pool, key: string, spec: Spec, env: AcquireEnv)
    requires Vacant(lim, p, key, env.load) && key in RecordsOf(p) && !AgreesExceptSecret(RecordsOf(p)[key].spec, spec)
    ensures var r := Acquire(lim, p, key, spec, env); var fault := DeleteFault(p, key, env.delete);
      && (fault.Some? ==> r == Acquired(p, Err(StoreFailure(fault.value)), []))
      && (fault == None ==>
           && Turned(p, RecordsOf(p) - {key}, if env.upstreamDeletes then SpecMismatch else UpstreamFailure, r)
           && r.calls == [CallDelete(RecordsOf(p)[key].sessionID, env.upstreamDeletes)])
  {
    VacantIsMissing(lim, p, key, spec, env);
    AgreesIs(p, key, spec);
    DeleteIs(p, key, env.delete, env.save);
  }

  /** The recorded session has not been used for the idle period. */
  predicate Lapsed(lim: Limits, record: StoredSession, now: int) {
    lim.ttl > 0 && now - record.updatedAt >= lim.ttl
  }

  /** The record of a session whose idle period is over goes, and so does that session, and a new one is asked for,
      created now; if either cannot be deleted, that is the answer. */
  lemma WithLapsedRecord(lim: Limits, p: Pool, key: string, spec: Spec, env: AcquireEnv)
    requires Vacant(lim, p, key, env.load) && key in RecordsOf(p) && AgreesExceptSecret(RecordsOf(p)[key].spec, spec)
    requires Lapsed(lim, RecordsOf(p)[key], env.now)
    ensures var r := Acquire(lim, p, key, spec, env); var fault := DeleteFault(p, key, env.delete);
      var deletion := CallDelete(RecordsOf(p)[key].sessionID, env.upstreamDeletes);
      && (fault.Some? ==> r == Acquired(p, Err(StoreFailure(fault.value)), []))
      && (fault == None && !env.upstreamDeletes ==>
           Turned(p, RecordsOf(p) - {key}, UpstreamFailure, r) && r.calls == [deletion])
      && (fault == None && env.upstreamDeletes ==>
           Anew(p, RecordsOf(p) - {key}, key, spec, env.now, env, [deletion], r))
  {
    VacantIsMissing(lim, p, key, spec, env);
    AgreesIs(p, key, spec);
    DeleteIs(p, key, env.delete, env.save);
    if DeleteFault(p, key, env.delete) == None {
      RebuildsAnew(p, key, spec, env);
    }
  }

  /** A recorded session that is not too old is resumed, with its id and its creation time. If the gateway cannot
      resume, a new one takes over the creation time; if the runtime has lost it, the record goes and a new one starts
      now; if resuming fails, nothing changes. */
  lemma WithFreshRecord(lim: Limits, p: Pool, key: string, spec: Spec, env: AcquireEnv)
    requires Vacant(lim, p, key, env.load) && key in RecordsOf(p) && AgreesExceptSecret(RecordsOf(p)[key].spec, spec)
    requires !Lapsed(lim, RecordsOf(p)[key], env.now)
    ensures var r := Acquire(lim, p, key, spec, env); var record := RecordsOf(p)[key];
      var since := if record.createdAt == ZERO_TIME then env.now else record.createdAt;
      && (!env.canResume ==> Anew(p, RecordsOf(p), key, spec, since, env, [], r))
      && (env.canResume && env.resume == Resumed ==>
           && r.calls == [CallResume(record.sessionID)]
           && Lodged(p, RecordsOf(p), key, Live(spec, record.sessionID, since, env.now, true), false, env.save, r))
      && (env.canResume && env.resume == ResumeFailed ==> r == Acquired(p, Err(UpstreamFailure), []))
      && (env.canResume && env.resume == NotFound ==>
           var fault := DeleteFault(p, key, env.delete);
           if fault.Some? then r == Acquired(p, Err(StoreFailure(fault.value)), [])
           else Anew(p, RecordsOf(p) - {key}, key, spec, env.now, env, [], r))
  {
    var record := RecordsOf(p)[key];
    VacantIsMissing(lim, p, key, spec, env);
    AgreesIs(p, key, spec);
    if !env.canResume {
      BuildsAnew(p, key, spec, env, record.createdAt);
    } else if env.resume == Resumed {
      FinishLodges(p, key, spec, env, record.sessionID, record.createdAt, false, [CallResume(record.sessionID)]);
    } else if env.resume == NotFound {
      DeleteIs(p, key, env.delete, env.save);
      if DeleteFault(p, key, env.delete) == None {
        RebuildsAnew(p, key, spec, env);
      }
    }
  }

  // ---------- Asking again ----------

  /** A request for settings other than the recorded ones is refused once: asked again, it starts a new session with
      its own settings, whatever has become of the disk's and the runtime's mood, if only they do what they are asked
      the second time. */
  lemma RefusedThenGranted(lim: Limits, p: Pool, key: string, spec: Spec, env: AcquireEnv, again: AcquireEnv)
    requires Vacant(lim, p, key, env.load) && key in RecordsOf(p)
    requires Acquire(lim, p, key, spec, env).result == Err(SpecMismatch)
    requires again.load.readOk && SaveFault(p, again.save) == None && again.create.Created?
    ensures var r := Acquire(lim, Acquire(lim, p, key, spec, env).pool, key, spec, again);
      && r.result == Ok(Grant(again.create.sessionID, true, true))
      && r.pool.live == p.live[key := Live(spec, again.create.sessionID, again.now, again.now, true)]
      && r.calls == [CallCreate(again.create.sessionID)]
      && CallDelete(RecordsOf(p)[key].sessionID, true) in Acquire(lim, p, key, spec, env).calls
  {
    MismatchIsOfSettings(lim, p, key, spec, env);
    WithOtherSettings(lim, p, key, spec, env);
    RefusalKeepsDisk(lim, p, key, spec, env, again.save);
    var p' := Acquire(lim, p, key, spec, env).pool;
    WithoutRecord(lim, p', key, spec, again);
  }

  /** Settings are the only ground for that refusal. */
  lemma MismatchIsOfSettings(lim: Limits, p: Pool, key: string, spec: Spec, env: AcquireEnv)
    requires Vacant(lim, p, key, env.load)
    ensures Acquire(lim, p, key, spec, env).result == Err(SpecMismatch) <==>
      && key in RecordsOf(p) && !AgreesExceptSecret(RecordsOf(p)[key].spec, spec)
      && DeleteFault(p, key, env.delete) == None && env.upstreamDeletes
  {
    if key !in RecordsOf(p) {
      WithoutRecord(lim, p, key, spec, env);
    } else if !AgreesExceptSecret(RecordsOf(p)[key].spec, spec) {
      WithOtherSettings(lim, p, key, spec, env);
    } else if Lapsed(lim, RecordsOf(p)[key], env.now) {
      WithLapsedRecord(lim, p, key, spec, env);
    } else {
      WithFreshRecord(lim, p, key, spec, env);
    }
  }

  lemma RefusalKeepsDisk(lim: Limits, p: Pool, key: string, spec: Spec, env: AcquireEnv, save: Io)
    requires Vacant(lim, p, key, env.load) && key in RecordsOf(p) && !AgreesExceptSecret(RecordsOf(p)[key].spec, spec)
    ensures var p' := Acquire(lim, p, key, spec, env).pool;
      SaveFault(p', save) == SaveFault(p, save) && (p'.store.Some? ==> !p'.store.value.disk.Garbage?)
  {
    VacantIsMissing(lim, p, key, spec, env);
    AgreesIs(p, key, spec);
    DeleteIs(p, key, env.delete, save);
  }

  // ---------- Giving back and dropping ----------

  /** The records after one of them was written, as far as the disk allowed. */
  function Refreshed(p: Pool, key: string, entry: Live, now: int, save: Io): map<string, StoredSession> {
    if SaveFault(p, save).Some? then RecordsOf(p)
    else
      Written(p, RecordsOf(p), key, StoredSession(entry.sessionID, SpecForStorage(entry.spec), entry.createdAt, now))
  }

  /** The records after one of them was deleted, as far as the disk allowed. */
  function Forgotten(p: Pool, key: string, delete: Io): map<string, StoredSession> {
    if DeleteFault(p, key, delete).Some? then RecordsOf(p) else RecordsOf(p) - {key}
  }

  function Reported(fault: Option<StoreError>): Option<AcquireError> {
    if fault.Some? then Some(StoreFailure(fault.value)) else None
  }

  /** A session given back is free and freshly used, in memory and, if the disk allows, on it, where nothing else
      changes; given back late, it leaves the live sessions alone and writes the same record. The disk's fault is the
      only one. */
  lemma GivenBackIs(p: Pool, key: string, entry: Live, now: int, save: Io)
    ensures key in p.live && p.live[key] == entry ==>
      var p' := Release(p, key, now, save);
      && p'.live == p.live[key := Live(entry.spec, entry.sessionID, entry.createdAt, now, false)]
      && RecordsOf(p') == Refreshed(p, key, entry, now, save)
    ensures var p' := LateRelease(p, key, entry, now, save);
      p'.live == p.live && RecordsOf(p') == Refreshed(p, key, entry, now, save)
    ensures SaveError(p.store, key, RecordOf(entry, now), save) == Reported(SaveFault(p, save))
  {
    SaveIs(p, key, RecordOf(entry, now), save);
  }

  /** A session that is dropped is not live any more, its record goes if the disk allows, and it is deleted upstream if
      it has an id; dropped late, it leaves the live sessions alone. The first fault is reported: closing, the disk, the
      runtime. */
  lemma DroppedIs(p: Pool, key: string, entry: Live, env: DestroyEnv)
    ensures key in p.live && p.live[key] == entry ==>
      var (p', calls) := Discard(p, key, env);
      && p'.live == p.live - {key} && RecordsOf(p') == Forgotten(p, key, env.delete)
      && calls == (if entry.sessionID == "" then [] else [CallDelete(entry.sessionID, env.upstreamDeletes)])
    ensures var p' := LateDiscard(p, key, env);
      p'.live == p.live && RecordsOf(p') == Forgotten(p, key, env.delete)
    ensures DestroyError(p.store, key, entry, env) ==
      if !env.closes then Some(UpstreamFailure)
      else if DeleteFault(p, key, env.delete).Some? then Reported(DeleteFault(p, key, env.delete))
      else if entry.sessionID != "" && !env.upstreamDeletes then Some(UpstreamFailure)
      else None
  {
    DeleteIs(p, key, env.delete, env.delete);
  }

  // ---------- Sweeps and shutdown ----------

  /** The records after those of some keys were deleted, as far as the disk allowed. */
  ghost predicate Swept(p: Pool, p': Pool, keys: set<string>, env: string -> DestroyEnv) {
    forall k :: && (k in RecordsOf(p') <==>
                     k in RecordsOf(p) && !(k in keys && DeleteFault(p, k, env(k).delete) == None))
                && (k in RecordsOf(p') ==> RecordsOf(p')[k] == RecordsOf(p)[k])
  }

  lemma DeletedRecordsAreSwept(p: Pool, p': Pool, keys: set<string>, env: string -> DestroyEnv)
    requires p'.store == DeleteRecords(p.store, keys, env)
    ensures Swept(p, p', keys, env)
  {
  }

  /** A sweep ends exactly the sessions that are free and have not been used for the idle period; their records go as
      far as the disk allows, and no others. */
  lemma SweepIs(lim: Limits, p: Pool, now: int, env: string -> DestroyEnv)
    ensures var p' := Expire(lim, p, now, env);
      && (forall k :: k in p'.live <==>
            k in p.live && !(lim.ttl > 0 && !p.live[k].leased && now - p.live[k].lastUsed >= lim.ttl))
      && (forall k :: k in p'.live ==> p'.live[k] == p.live[k])
      && Swept(p, p', p.live.Keys - p'.live.Keys, env)
  {
    var p' := Expire(lim, p, now, env);
    assert p.live.Keys - p'.live.Keys == StaleKeys(lim, p, now);
    DeletedRecordsAreSwept(p, p', StaleKeys(lim, p, now), env);
  }

  function Unheld(p: Pool): set<string> {
    set k | k in p.live && !p.live[k].leased
  }

  /** A shutdown ends all sessions; unless the index is to be kept, the records of those that nobody holds go as far as
      the disk allows, and no others; once the context has ended, none does. */
  lemma ShutdownIs(p: Pool, preserve: bool, ctxEnded: bool, env: string -> DestroyEnv)
    ensures var p' := Close(p, preserve, ctxEnded, env);
      && p'.live == map[]
      && Swept(p, p', if preserve || ctxEnded then {} else Unheld(p), env)
  {
    var gone := if preserve || ctxEnded then {} else Unheld(p);
    if !preserve {
      assert FreeKeys(p, ctxEnded) == gone;
      DeletedRecordsAreSwept(p, Close(p, preserve, ctxEnded, env), gone, env);
    }
  }
}
