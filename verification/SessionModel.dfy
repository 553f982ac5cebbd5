/** The session manager's operations as functions on values, each taken as one step: the pool of live
    sessions, the index on disk, and what each operation asks of the upstream runtime. What the outside
    world answers (clock, disk, runtime) is an argument. */
module SessionModel {
  import opened Prelude
  import opened SessionSpec
  import opened FileStore
  import SessionKeys

  datatype Limits = Limits(ttl: int, maxActive: int, maxPerNamespace: int)

  /** A ready entry of the pool; `leased` says that its lock is taken. */
  datatype Live = Live(spec: Spec, sessionID: string, createdAt: int, lastUsed: int, leased: bool)

  datatype Pool = Pool(live: map<string, Live>, store: Option<Store>)

  /** The zero time, as a record without a creation time carries it. */
  const ZERO_TIME := 0

  datatype ResumeAnswer = Resumed | NotFound | ResumeFailed
  datatype CreateAnswer = Created(sessionID: string) | CreateFailed

  /** What the world answers during one Acquire. A session-not-found answer to a deletion counts as success. */
  datatype AcquireEnv = AcquireEnv(
    now: int, ctxEnded: bool, load: Io, delete: Io, save: Io,
    canResume: bool, resume: ResumeAnswer, create: CreateAnswer, upstreamDeletes: bool)

  /** What the world answers while one entry is destroyed. */
  datatype DestroyEnv = DestroyEnv(closes: bool, delete: Io, upstreamDeletes: bool)

  datatype AcquireError =
    | SpecMismatch | TooManySessions | TooManySessionsForNamespace | ContextEnded
    | StoreFailure(error: StoreError) | UpstreamFailure

  /** Requests to the runtime that change what it keeps. */
  datatype Call =
    | CallCreate(sessionID: string)
    | CallResume(sessionID: string)
    | CallDelete(sessionID: string, done: bool)

  datatype Grant = Grant(sessionID: string, persistent: bool, created: bool)

  datatype Acquired = Acquired(pool: Pool, result: Result<Grant, AcquireError>, calls: seq<Call>)

  function Refuse(p: Pool, e: AcquireError, calls: seq<Call>): Acquired {
    Acquired(p, Err(e), calls)
  }

  // ---------- The index, when there is one ----------

  function SaveTo(store: Option<Store>, key: string, record: StoredSession, io: Io): Result<Option<Store>, StoreError> {
    if store == None then Ok(None)
    else
      var saved := Save(store.value, key, record, io);
      if saved.Ok? then Ok(Some(saved.value)) else Err(saved.error)
  }

  function DeleteFrom(store: Option<Store>, key: string, io: Io): Result<Option<Store>, StoreError> {
    if store == None then Ok(None)
    else
      var deleted := Delete(store.value, key, io);
      if deleted.Ok? then Ok(Some(deleted.value)) else Err(deleted.error)
  }

  // ---------- Capacity ----------

  function InNamespace(keys: set<string>, namespace: string): set<string> {
    set k | k in keys && SessionKeys.SessionNamespace(k) == namespace
  }

  function CapacityError(lim: Limits, keys: set<string>, key: string): Option<AcquireError> {
    if lim.maxActive > 0 && |keys| >= lim.maxActive then Some(TooManySessions)
    else if lim.maxPerNamespace > 0 && |InNamespace(keys, SessionKeys.SessionNamespace(key))| >= lim.maxPerNamespace
    then Some(TooManySessionsForNamespace)
    else None
  }

  // ---------- Acquire ----------

  function Acquire(lim: Limits, p: Pool, key: string, spec: Spec, env: AcquireEnv): Acquired {
    if key == "" then AcquireEphemeral(p, env)
    else if key in p.live then AcquireLive(p, key, spec, env)
    else
      var full := CapacityError(lim, p.live.Keys, key);
      if full.Some? then Refuse(p, full.value, []) else AcquireMissing(lim, p, key, spec, env)
  }

  function AcquireEphemeral(p: Pool, env: AcquireEnv): Acquired {
    match env.create
    case CreateFailed => Refuse(p, UpstreamFailure, [])
    case Created(sid) => Acquired(p, Ok(Grant(sid, false, true)), [CallCreate(sid)])
  }

  /** The entry lock is polled until the context ends; as one step, a held lock means that it ends. */
  function AcquireLive(p: Pool, key: string, spec: Spec, env: AcquireEnv): Acquired
    requires key in p.live
  {
    var entry := p.live[key];
    if entry.spec != spec then Refuse(p, SpecMismatch, [])
    else if env.ctxEnded || entry.leased then Refuse(p, ContextEnded, [])
    else Acquired(p.(live := p.live[key := entry.(lastUsed := env.now, leased := true)]),
                  Ok(Grant(entry.sessionID, true, false)), [])
  }

  function AcquireMissing(lim: Limits, p: Pool, key: string, spec: Spec, env: AcquireEnv): Acquired {
    if p.store == None then Build(p, key, spec, env, ZERO_TIME)
    else
      var loaded := Load(p.store.value, key, env.load);
      if loaded.Err? then Refuse(p, StoreFailure(loaded.error), [])
      else if loaded.value == None then Build(p, key, spec, env, ZERO_TIME)
      else AcquireStored(lim, p, key, spec, env, loaded.value.value)
  }

  /** Deletes a record that no longer applies, then its upstream session. */
  function RemoveStored(p: Pool, key: string, record: StoredSession, env: AcquireEnv)
      : (r: (Pool, Option<AcquireError>, seq<Call>))
    requires p.store.Some?
  {
    var deleted := DeleteFrom(p.store, key, env.delete);
    if deleted.Err? then (p, Some(StoreFailure(deleted.error)), [])
    else (p.(store := deleted.value), if env.upstreamDeletes then None else Some(UpstreamFailure),
          [CallDelete(record.sessionID, env.upstreamDeletes)])
  }

  function AcquireStored(lim: Limits, p: Pool, key: string, spec: Spec, env: AcquireEnv, record: StoredSession)
      : Acquired
    requires p.store.Some?
  {
    if !PersistedSpecMatches(record.spec, spec) then
      var (p', failed, calls) := RemoveStored(p, key, record, env);
      Refuse(p', if failed.Some? then failed.value else SpecMismatch, calls)
    else if lim.ttl > 0 && env.now - record.updatedAt >= lim.ttl then
      var (p', failed, calls) := RemoveStored(p, key, record, env);
      if failed.Some? then Refuse(p', failed.value, calls)
      else
        var built := Build(p', key, spec, env, ZERO_TIME);
        built.(calls := calls + built.calls)
    else ResumeStored(p, key, spec, env, record)
  }

  /** Resumes the recorded session; if the runtime does not know it any more, drops the record and starts anew. */
  function ResumeStored(p: Pool, key: string, spec: Spec, env: AcquireEnv, record: StoredSession): Acquired
    requires p.store.Some?
  {
    if !env.canResume then Build(p, key, spec, env, record.createdAt)
    else match env.resume
      case Resumed => Finish(p, key, spec, env, record.sessionID, record.createdAt, false,
        [CallResume(record.sessionID)])
      case ResumeFailed => Refuse(p, UpstreamFailure, [])
      case NotFound =>
        var deleted := DeleteFrom(p.store, key, env.delete);
        if deleted.Err? then Refuse(p, StoreFailure(deleted.error), [])
        else Build(p.(store := deleted.value), key, spec, env, ZERO_TIME)
  }

  /** Asks the runtime for a new session. */
  function Build(p: Pool, key: string, spec: Spec, env: AcquireEnv, createdAt: int): Acquired {
    match env.create
    case CreateFailed => Refuse(p, UpstreamFailure, [])
    case Created(sid) => Finish(p, key, spec, env, sid, createdAt, true, [CallCreate(sid)])
  }

  function RecordOf(entry: Live, now: int): StoredSession {
    StoredSession(entry.sessionID, SpecForStorage(entry.spec), entry.createdAt, now)
  }

  /** Records the session on disk and hands out the lease; if the record cannot be written, no entry stays. */
  function Finish(p: Pool, key: string, spec: Spec, env: AcquireEnv, sid: string, createdAt: int, created: bool,
                  calls: seq<Call>): Acquired {
    var entry := Live(spec, sid, if createdAt != ZERO_TIME then createdAt else env.now, env.now, true);
    var saved := SaveTo(p.store, key, RecordOf(entry, env.now), env.save);
    if saved.Err? then Refuse(p, StoreFailure(saved.error), calls)
    else Acquired(Pool(p.live[key := entry], saved.value), Ok(Grant(sid, true, created)), calls)
  }

  // ---------- Release and Discard ----------

  /** The record is refreshed if the disk allows it; the lock is given back either way. */
  function Release(p: Pool, key: string, now: int, save: Io): Pool
    requires key in p.live
  {
    var entry := p.live[key].(lastUsed := now, leased := false);
    Pool(p.live[key := entry], SaveQuietly(p.store, key, RecordOf(entry, now), save))
  }

  function SaveQuietly(store: Option<Store>, key: string, record: StoredSession, io: Io): Option<Store> {
    var saved := SaveTo(store, key, record, io);
    if saved.Ok? then saved.value else store
  }

  function DeleteQuietly(store: Option<Store>, key: string, io: Io): Option<Store> {
    var deleted := DeleteFrom(store, key, io);
    if deleted.Ok? then deleted.value else store
  }

  function SaveError(store: Option<Store>, key: string, record: StoredSession, io: Io): Option<AcquireError> {
    var saved := SaveTo(store, key, record, io);
    if saved.Ok? then None else Some(StoreFailure(saved.error))
  }

  function Discard(p: Pool, key: string, env: DestroyEnv): (r: (Pool, seq<Call>))
    requires key in p.live
  {
    (Pool(p.live - {key}, DeleteQuietly(p.store, key, env.delete)), DestroyCalls(p.live[key], env))
  }

  /** The first thing to go wrong while an entry is destroyed; nothing stops the later steps. */
  function DestroyError(store: Option<Store>, key: string, entry: Live, env: DestroyEnv): Option<AcquireError> {
    if !env.closes then Some(UpstreamFailure)
    else if DeleteFrom(store, key, env.delete).Err? then Some(StoreFailure(DeleteFrom(store, key, env.delete).error))
    else if entry.sessionID != "" && !env.upstreamDeletes then Some(UpstreamFailure)
    else None
  }

  function DestroyCalls(entry: Live, env: DestroyEnv): seq<Call> {
    if entry.sessionID == "" then [] else [CallDelete(entry.sessionID, env.upstreamDeletes)]
  }

  /** Release and Discard of a lease whose entry is no longer the one in the pool: only the record of
      the key is touched. */
  function LateRelease(p: Pool, key: string, entry: Live, now: int, save: Io): Pool {
    p.(store := SaveQuietly(p.store, key, RecordOf(entry, now), save))
  }

  function LateDiscard(p: Pool, key: string, env: DestroyEnv): Pool {
    p.(store := DeleteQuietly(p.store, key, env.delete))
  }

  // ---------- Expiry and shutdown ----------

  predicate Stale(lim: Limits, entry: Live, now: int) {
    now - entry.lastUsed >= lim.ttl && !entry.leased
  }

  function StaleKeys(lim: Limits, p: Pool, now: int): set<string> {
    if lim.ttl <= 0 then {} else set k | k in p.live && Stale(lim, p.live[k], now)
  }

  function DiskAllows(keys: set<string>, env: string -> DestroyEnv): set<string> {
    set k | k in keys && env(k).delete.readOk && env(k).delete.writeOk
  }

  /** Records of the given keys go, as far as the disk allows. */
  function DeleteRecords(store: Option<Store>, keys: set<string>, env: string -> DestroyEnv): Option<Store> {
    if store == None || store.value.path == "" || !store.value.disk.Document? then store
    else Some(store.value.(disk := Document(store.value.disk.records - DiskAllows(keys, env))))
  }

  lemma DeleteNone(store: Option<Store>, env: string -> DestroyEnv)
    ensures DeleteRecords(store, {}, env) == store
  {
    assert DiskAllows({}, env) == {};
    if store.Some? && store.value.disk.Document? {
      assert store.value.disk.records - {} == store.value.disk.records;
    }
  }

  /** Deleting one more record, in whatever order the keys come: the other deletions change neither what this
      one does nor whether it fails. */
  lemma DeleteOneMore(store: Option<Store>, keys: set<string>, key: string, env: string -> DestroyEnv, entry: Live)
    requires key !in keys
    ensures DeleteQuietly(DeleteRecords(store, keys, env), key, env(key).delete)
      == DeleteRecords(store, keys + {key}, env)
    ensures DestroyError(DeleteRecords(store, keys, env), key, entry, env(key))
      == DestroyError(store, key, entry, env(key))
  {
    if store.Some? && store.value.path != "" && store.value.disk.Document? {
      var before := DeleteRecords(store, keys, env).value;
      var io := env(key).delete;
      DeleteFromDocument(before, key, io);
      DeleteFromDocument(store.value, key, io);
      if io.readOk && io.writeOk {
        assert DiskAllows(keys + {key}, env) == DiskAllows(keys, env) + {key};
        assert before.disk.records - {key} == store.value.disk.records - DiskAllows(keys + {key}, env);
      } else {
        assert DiskAllows(keys + {key}, env) == DiskAllows(keys, env);
      }
    }
  }

  lemma DeleteFromDocument(store: Store, key: string, io: Io)
    requires store.path != "" && store.disk.Document?
    ensures var kept := store.(disk := Document(store.disk.records - {key}));
      Delete(store, key, io) == if !io.readOk then Err(ReadFailed)
                                else if key in store.disk.records && !io.writeOk then Err(WriteFailed)
                                else Ok(kept)
    ensures key !in store.disk.records ==> store.(disk := Document(store.disk.records - {key})) == store
  {
    var records := store.disk.records;
    assert EncodeAll(DecodeAll(records) - {key}) == records - {key};
    if key !in records {
      assert records - {key} == records;
    }
  }

  /** None of the entries runs into an error while it is destroyed. */
  ghost predicate DestroyedWell(store: Option<Store>, live: map<string, Live>, keys: set<string>,
      env: string -> DestroyEnv)
  {
    forall k :: k in keys ==> k in live && DestroyError(store, k, live[k], env(k)) == None
  }

  /** An error of one of the entries is reported, if there is one. */
  ghost predicate Reports(error: Option<AcquireError>, store: Option<Store>, live: map<string, Live>, keys: set<string>,
      env: string -> DestroyEnv)
  {
    if error == None then DestroyedWell(store, live, keys, env)
    else exists k :: k in keys && k in live && DestroyError(store, k, live[k], env(k)) == error
  }

  lemma ReportsOneMore(error: Option<AcquireError>, store: Option<Store>, live: map<string, Live>, keys: set<string>,
      key: string, env: string -> DestroyEnv)
    requires key in live && Reports(error, store, live, keys, env)
    ensures Reports(if error == None then DestroyError(store, key, live[key], env(key)) else error, store, live,
      keys + {key}, env)
  {
    if error == None {
      DestroyedOneMore(store, live, keys, key, env);
    } else {
      var k :| k in keys && k in live && DestroyError(store, k, live[k], env(k)) == error;
      assert k in keys + {key};
    }
  }

  /** Upstream, the sessions of the given keys are asked to be deleted, and no others. */
  ghost predicate DeletesUpstream(calls: seq<Call>, live: map<string, Live>, keys: set<string>,
      env: string -> DestroyEnv)
  {
    forall c :: c in calls <==> exists k :: k in keys && k in live && c in DestroyCalls(live[k], env(k))
  }

  lemma DeletesOneMore(calls: seq<Call>, live: map<string, Live>, keys: set<string>, key: string,
      env: string -> DestroyEnv)
    requires key in live && DeletesUpstream(calls, live, keys, env)
    ensures DeletesUpstream(calls + DestroyCalls(live[key], env(key)), live, keys + {key}, env)
  {
    var more := calls + DestroyCalls(live[key], env(key));
    forall c ensures c in more <==> exists k :: k in keys + {key} && k in live && c in DestroyCalls(live[k], env(k)) {
      if c in calls {
        var k :| k in keys && k in live && c in DestroyCalls(live[k], env(k));
        assert k in keys + {key};
      }
    }
  }

  lemma DestroyedOneMore(store: Option<Store>, live: map<string, Live>, keys: set<string>, key: string,
      env: string -> DestroyEnv)
    requires key in live
    ensures DestroyedWell(store, live, keys + {key}, env) <==>
      DestroyedWell(store, live, keys, env) && DestroyError(store, key, live[key], env(key)) == None
  {
  }

  /** The entries of the given keys have been destroyed, from the index store on: what of it is left, what went wrong
      and what was asked of the runtime. */
  ghost predicate Destroyed(store: Option<Store>, live: map<string, Live>, keys: set<string>, env: string -> DestroyEnv,
      after: Option<Store>, error: Option<AcquireError>, calls: seq<Call>)
  {
    && after == DeleteRecords(store, keys, env)
    && Reports(error, store, live, keys, env) && DeletesUpstream(calls, live, keys, env)
  }

  lemma NoneDestroyed(store: Option<Store>, live: map<string, Live>, env: string -> DestroyEnv)
    ensures Destroyed(store, live, {}, env, store, None, [])
  {
    DeleteNone(store, env);
  }

  lemma DestroyedNext(store: Option<Store>, live: map<string, Live>, keys: set<string>, key: string,
      env: string -> DestroyEnv, after: Option<Store>, error: Option<AcquireError>, calls: seq<Call>)
    requires key !in keys && key in live && Destroyed(store, live, keys, env, after, error, calls)
    ensures Destroyed(store, live, keys + {key}, env, DeleteQuietly(after, key, env(key).delete),
      if error == None then DestroyError(after, key, live[key], env(key)) else error,
      calls + DestroyCalls(live[key], env(key)))
  {
    DeleteOneMore(store, keys, key, env, live[key]);
    ReportsOneMore(error, store, live, keys, key, env);
    DeletesOneMore(calls, live, keys, key, env);
  }

  /** CleanupExpired: every stale entry whose lock is free goes, and its record with it. */
  function Expire(lim: Limits, p: Pool, now: int, env: string -> DestroyEnv): Pool {
    var stale := StaleKeys(lim, p, now);
    Pool(p.live - stale, DeleteRecords(p.store, stale, env))
  }

  predicate Free(entry: Live, ctxEnded: bool) {
    !entry.leased && !ctxEnded
  }

  function FreeKeys(p: Pool, ctxEnded: bool): set<string> {
    set k | k in p.live && Free(p.live[k], ctxEnded)
  }

  /** What goes wrong with one entry at shutdown: its lock is not to be had, or closing it fails. */
  function CloseError(store: Option<Store>, key: string, entry: Live, preserve: bool, ctxEnded: bool,
      env: DestroyEnv)
      : Option<AcquireError>
  {
    if !Free(entry, ctxEnded) then Some(ContextEnded)
    else if !preserve then DestroyError(store, key, entry, env)
    else if env.closes then None else Some(UpstreamFailure)
  }

  /** No entry runs into an error at shutdown. */
  ghost predicate ClosedWell(p: Pool, keys: set<string>, preserve: bool, ctxEnded: bool, env: string -> DestroyEnv) {
    forall k :: k in keys ==> k in p.live && CloseError(p.store, k, p.live[k], preserve, ctxEnded, env(k)) == None
  }

  /** An error met at shutdown is reported, if there is one. */
  ghost predicate ReportsClosing(error: Option<AcquireError>, p: Pool, keys: set<string>, preserve: bool,
      ctxEnded: bool, env: string -> DestroyEnv)
  {
    if error == None then ClosedWell(p, keys, preserve, ctxEnded, env)
    else exists k :: k in keys && k in p.live && CloseError(p.store, k, p.live[k], preserve, ctxEnded, env(k)) == error
  }

  lemma ReportsClosingOneMore(error: Option<AcquireError>, p: Pool, keys: set<string>, key: string, preserve: bool,
      ctxEnded: bool, env: string -> DestroyEnv)
    requires key in p.live && ReportsClosing(error, p, keys, preserve, ctxEnded, env)
    ensures ReportsClosing(
      if error == None then CloseError(p.store, key, p.live[key], preserve, ctxEnded, env(key)) else error,
      p, keys + {key}, preserve, ctxEnded, env)
  {
    if error == None {
      ClosedOneMore(p, keys, key, preserve, ctxEnded, env);
    } else {
      var k :| k in keys && k in p.live && CloseError(p.store, k, p.live[k], preserve, ctxEnded, env(k)) == error;
      assert k in keys + {key};
    }
  }

  /** The keys whose sessions are deleted at shutdown. */
  function ClosedFor(p: Pool, preserve: bool, ctxEnded: bool): set<string> {
    if preserve then {} else FreeKeys(p, ctxEnded)
  }

  function CloseCalls(entry: Live, preserve: bool, ctxEnded: bool, env: DestroyEnv): seq<Call> {
    if preserve || !Free(entry, ctxEnded) then [] else DestroyCalls(entry, env)
  }

  lemma ClosesOneMore(calls: seq<Call>, p: Pool, keys: set<string>, key: string, preserve: bool, ctxEnded: bool,
      env: string -> DestroyEnv)
    requires key in p.live && DeletesUpstream(calls, p.live, keys * ClosedFor(p, preserve, ctxEnded), env)
    ensures DeletesUpstream(calls + CloseCalls(p.live[key], preserve, ctxEnded, env(key)), p.live,
      (keys + {key}) * ClosedFor(p, preserve, ctxEnded), env)
  {
    var closed := ClosedFor(p, preserve, ctxEnded);
    if preserve || !Free(p.live[key], ctxEnded) {
      assert (keys + {key}) * closed == keys * closed && calls + [] == calls;
    } else {
      DeletesOneMore(calls, p.live, keys * closed, key, env);
      assert (keys + {key}) * closed == keys * closed + {key};
    }
  }

  lemma ClosedOneMore(p: Pool, keys: set<string>, key: string, preserve: bool, ctxEnded: bool,
      env: string -> DestroyEnv)
    requires key in p.live
    ensures ClosedWell(p, keys + {key}, preserve, ctxEnded, env) <==>
      ClosedWell(p, keys, preserve, ctxEnded, env)
        && CloseError(p.store, key, p.live[key], preserve, ctxEnded, env(key)) == None
  {
  }

  /** The index once the given keys have been shut down. */
  function ClosedIndex(p: Pool, keys: set<string>, preserve: bool, ctxEnded: bool, env: string -> DestroyEnv)
      : Option<Store>
  {
    if preserve then p.store else DeleteRecords(p.store, keys * FreeKeys(p, ctxEnded), env)
  }

  lemma CloseNone(p: Pool, preserve: bool, ctxEnded: bool, env: string -> DestroyEnv)
    ensures ClosedIndex(p, {}, preserve, ctxEnded, env) == p.store
  {
    assert {} * FreeKeys(p, ctxEnded) == {};
    DeleteNone(p.store, env);
  }

  lemma CloseOneMore(p: Pool, keys: set<string>, key: string, preserve: bool, ctxEnded: bool, env: string -> DestroyEnv)
    requires key !in keys && key in p.live
    ensures var store := ClosedIndex(p, keys, preserve, ctxEnded, env);
      var entry := p.live[key];
      && CloseError(store, key, entry, preserve, ctxEnded, env(key))
           == CloseError(p.store, key, entry, preserve, ctxEnded, env(key))
      && ClosedIndex(p, keys + {key}, preserve, ctxEnded, env) ==
           if preserve || !Free(entry, ctxEnded) then store else DeleteQuietly(store, key, env(key).delete)
  {
    var free := FreeKeys(p, ctxEnded);
    if Free(p.live[key], ctxEnded) {
      assert (keys + {key}) * free == keys * free + {key};
      DeleteOneMore(p.store, keys * free, key, env, p.live[key]);
    } else {
      assert (keys + {key}) * free == keys * free;
    }
  }

  /** closeContext: the map is emptied; sessions whose lock is free are closed and, unless the index is
      to be kept, forgotten. Once the context has ended no lock is taken any more. */
  function Close(p: Pool, preserve: bool, ctxEnded: bool, env: string -> DestroyEnv): Pool {
    Pool(map[], if preserve then p.store else DeleteRecords(p.store, FreeKeys(p, ctxEnded), env))
  }
}
