/** Runs of the session manager, one operation at a time: what keeps the pool and the index on disk in
    agreement, and what stays the same as long as a persisted session lives. Disk and runtime may fail
    at any point, and the manager may be shut down while leases are outstanding. */
module SessionRuns {
  import opened Prelude
  import opened SessionSpec
  import opened FileStore
  import opened SessionModel
  import SessionKeys

  /** A late operation finalises a lease whose entry a shutdown has taken out of the pool. */
  datatype Op =
    | AcquireOp(key: string, spec: Spec, acquire: AcquireEnv)
    | ReleaseOp(key: string, now: int, save: Io)
    | DiscardOp(key: string, destroy: DestroyEnv)
    | ExpireOp(now: int, destroyAll: string -> DestroyEnv)
    | ShutdownOp(preserve: bool, ctxEnded: bool, destroyAll: string -> DestroyEnv)
    | LateReleaseOp(key: string, entry: Live, now: int, save: Io)
    | LateDiscardOp(key: string, entry: Live, destroy: DestroyEnv)

  predicate Enabled(p: Pool, op: Op) {
    match op
    case ReleaseOp(key, _, _) => key in p.live && p.live[key].leased
    case DiscardOp(key, _) => key in p.live && p.live[key].leased
    case _ => true
  }

  function Apply(lim: Limits, p: Pool, op: Op): Pool
    requires Enabled(p, op)
  {
    match op
    case AcquireOp(key, spec, env) => Acquire(lim, p, key, spec, env).pool
    case ReleaseOp(key, now, save) => Release(p, key, now, save)
    case DiscardOp(key, env) => Discard(p, key, env).0
    case ExpireOp(now, env) => Expire(lim, p, now, env)
    case ShutdownOp(preserve, ctxEnded, env) => Close(p, preserve, ctxEnded, env)
    case LateReleaseOp(key, entry, now, save) => LateRelease(p, key, entry, now, save)
    case LateDiscardOp(key, _, env) => LateDiscard(p, key, env)
  }

  // ---------- Agreement of pool and index ----------

  /** The record on disk belongs to the live session: same id, same creation time, same settings
      except the credentials. */
  predicate Agrees(entry: Live, record: StoredSession) {
    record.sessionID == entry.sessionID && record.createdAt == entry.createdAt
      && record.spec == SpecForStorage(entry.spec)
  }

  ghost predicate StoreAgrees(live: map<string, Live>, store: Store) {
    Persistent(store) ==> forall k :: k in live ==> k in Records(store) && Agrees(live[k], Records(store)[k])
  }

  ghost predicate Agreement(p: Pool) {
    p.store.Some? ==> StoreAgrees(p.live, p.store.value)
  }

  lemma PersistenceKept(store: Store, key: string, record: StoredSession, io: Io)
    ensures Save(store, key, record, io).Ok? ==> Save(store, key, record, io).value.path == store.path
    ensures Delete(store, key, io).Ok? ==> Delete(store, key, io).value.path == store.path
  {
  }

  /** Deleting the record of a key that is not live leaves the others alone. */
  lemma DeleteKeepsAgreement(live: map<string, Live>, store: Store, key: string, io: Io)
    requires StoreAgrees(live, store) && key !in live && Delete(store, key, io).Ok?
    ensures StoreAgrees(live, Delete(store, key, io).value)
  {
    PersistenceKept(store, key, StoredSession("", Spec("", "", "", "", "", false, [], "", "", ""), 0, 0), io);
    if Persistent(store) {
      DeleteRefines(store, key, io);
    }
  }

  lemma SaveKeepsAgreement(live: map<string, Live>, store: Store, key: string, entry: Live, now: int, io: Io)
    requires StoreAgrees(live, store) && Save(store, key, RecordOf(entry, now), io).Ok?
    ensures StoreAgrees(live[key := entry], Save(store, key, RecordOf(entry, now), io).value)
  {
    PersistenceKept(store, key, RecordOf(entry, now), io);
    if Persistent(store) {
      SaveRefines(store, key, RecordOf(entry, now), io);
    }
  }

  lemma FinishKeepsAgreement(p: Pool, key: string, spec: Spec, env: AcquireEnv, sid: string, createdAt: int,
      created: bool, calls: seq<Call>)
    requires Agreement(p)
    ensures Agreement(Finish(p, key, spec, env, sid, createdAt, created, calls).pool)
  {
    var entry := Live(spec, sid, if createdAt != ZERO_TIME then createdAt else env.now, env.now, true);
    if p.store.Some? && Save(p.store.value, key, RecordOf(entry, env.now), env.save).Ok? {
      SaveKeepsAgreement(p.live, p.store.value, key, entry, env.now, env.save);
    }
  }

  lemma BuildKeepsAgreement(p: Pool, key: string, spec: Spec, env: AcquireEnv, createdAt: int)
    requires Agreement(p)
    ensures Agreement(Build(p, key, spec, env, createdAt).pool)
  {
    if env.create.Created? {
      FinishKeepsAgreement(p, key, spec, env, env.create.sessionID, createdAt, true,
        [CallCreate(env.create.sessionID)]);
    }
  }

  lemma AcquireKeepsAgreement(lim: Limits, p: Pool, key: string, spec: Spec, env: AcquireEnv)
    requires Agreement(p)
    ensures Agreement(Acquire(lim, p, key, spec, env).pool)
  {
    if key != "" && key !in p.live && CapacityError(lim, p.live.Keys, key) == None {
      BuildKeepsAgreement(p, key, spec, env, ZERO_TIME);
      if p.store.Some? {
        var loaded := Load(p.store.value, key, env.load);
        if loaded.Ok? && loaded.value.Some? {
          StoredKeepsAgreement(lim, p, key, spec, env, loaded.value.value);
        }
      }
    }
  }

  /** Building anew over an index from which the record of the key may have gone. */
  lemma RebuildKeepsAgreement(p: Pool, key: string, spec: Spec, env: AcquireEnv)
    requires Agreement(p) && p.store.Some? && key !in p.live && DeleteFrom(p.store, key, env.delete).Ok?
    ensures var p' := p.(store := DeleteFrom(p.store, key, env.delete).value);
      Agreement(p') && Agreement(Build(p', key, spec, env, ZERO_TIME).pool)
  {
    DeleteKeepsAgreement(p.live, p.store.value, key, env.delete);
    BuildKeepsAgreement(p.(store := DeleteFrom(p.store, key, env.delete).value), key, spec, env, ZERO_TIME);
  }

  lemma ResumeKeepsAgreement(p: Pool, key: string, spec: Spec, env: AcquireEnv, record: StoredSession)
    requires Agreement(p) && p.store.Some? && key !in p.live
    ensures Agreement(ResumeStored(p, key, spec, env, record).pool)
  {
    BuildKeepsAgreement(p, key, spec, env, record.createdAt);
    FinishKeepsAgreement(p, key, spec, env, record.sessionID, record.createdAt, false, [CallResume(record.sessionID)]);
    if DeleteFrom(p.store, key, env.delete).Ok? {
      RebuildKeepsAgreement(p, key, spec, env);
    }
  }

  lemma StoredKeepsAgreement(lim: Limits, p: Pool, key: string, spec: Spec, env: AcquireEnv, record: StoredSession)
    requires Agreement(p) && p.store.Some? && key !in p.live
    ensures Agreement(AcquireStored(lim, p, key, spec, env, record).pool)
  {
    ResumeKeepsAgreement(p, key, spec, env, record);
    if DeleteFrom(p.store, key, env.delete).Ok? {
      RebuildKeepsAgreement(p, key, spec, env);
    }
  }

  /** Records of keys that stay live are never deleted by a sweep. */
  lemma SweepKeepsAgreement(live: map<string, Live>, store: Option<Store>, keys: set<string>, env: string -> DestroyEnv)
    requires store.Some? ==> StoreAgrees(live, store.value)
    ensures DeleteRecords(store, keys, env).Some? ==> StoreAgrees(live - keys, DeleteRecords(store, keys, env).value)
  {
  }

  /** There is an index on disk that keeps anything. */
  predicate Indexed(p: Pool) {
    p.store.Some? && Persistent(p.store.value)
  }

  /** A late release whose record gets written finds its key free, or taken again by a session it agrees with; a
      late discard whose deletion gets through finds its key free. */
  predicate Guarded(p: Pool, op: Op) {
    match op
    case LateReleaseOp(key, entry, now, save) =>
      Indexed(p) && SaveTo(p.store, key, RecordOf(entry, now), save).Ok? && key in p.live ==>
        Agrees(p.live[key], RecordOf(entry, now))
    case LateDiscardOp(key, _, env) => Indexed(p) && DeleteFrom(p.store, key, env.delete).Ok? ==> key !in p.live
    case _ => true
  }

  /** A lease that outlives a shutdown spoils the agreement exactly when its record is written and the key has
      been taken again by a session with another id, creation time or settings. */
  lemma LateReleaseKeepsAgreementIff(p: Pool, key: string, entry: Live, now: int, save: Io)
    requires Agreement(p)
    ensures Agreement(LateRelease(p, key, entry, now, save)) <==> Guarded(p, LateReleaseOp(key, entry, now, save))
  {
    if p.store.Some? && Save(p.store.value, key, RecordOf(entry, now), save).Ok? {
      PersistenceKept(p.store.value, key, RecordOf(entry, now), save);
      if Persistent(p.store.value) {
        SaveRefines(p.store.value, key, RecordOf(entry, now), save);
      }
    }
  }

  /** Discarding such a lease spoils it exactly when the deletion gets through and the key has been taken again. */
  lemma LateDiscardKeepsAgreementIff(p: Pool, key: string, entry: Live, env: DestroyEnv)
    requires Agreement(p)
    ensures Agreement(LateDiscard(p, key, env)) <==> Guarded(p, LateDiscardOp(key, entry, env))
  {
    if p.store.Some? && Delete(p.store.value, key, env.delete).Ok? {
      PersistenceKept(p.store.value, key, RecordOf(entry, 0), env.delete);
      if Persistent(p.store.value) {
        DeleteRefines(p.store.value, key, env.delete);
      }
    }
  }

  lemma OpKeepsAgreement(lim: Limits, p: Pool, op: Op)
    requires Agreement(p) && Enabled(p, op) && Guarded(p, op)
    ensures Agreement(Apply(lim, p, op))
  {
    match op
    case AcquireOp(key, spec, env) => AcquireKeepsAgreement(lim, p, key, spec, env);
    case ReleaseOp(key, now, save) =>
      var entry := p.live[key].(lastUsed := now, leased := false);
      if p.store.Some? && Save(p.store.value, key, RecordOf(entry, now), save).Ok? {
        SaveKeepsAgreement(p.live, p.store.value, key, entry, now, save);
      }
    case DiscardOp(key, env) =>
      if p.store.Some? && Delete(p.store.value, key, env.delete).Ok? {
        DeleteKeepsAgreement(p.live - {key}, p.store.value, key, env.delete);
      }
    case ExpireOp(now, env) => SweepKeepsAgreement(p.live, p.store, StaleKeys(lim, p, now), env);
    case ShutdownOp(_, _, _) =>
    case LateReleaseOp(key, entry, now, save) => LateReleaseKeepsAgreementIff(p, key, entry, now, save);
    case LateDiscardOp(key, entry, env) => LateDiscardKeepsAgreementIff(p, key, entry, env);
  }

  // ---------- Runs ----------

  /** A lease that a shutdown has left behind. */
  datatype Late = Late(key: string, entry: Live)

  datatype State = State(pool: Pool, late: multiset<Late>)

  function LeftBehind(p: Pool): multiset<Late> {
    multiset(set k | k in p.live && p.live[k].leased :: Late(k, p.live[k]))
  }

  /** Each lease is finalised once, in time or late. */
  predicate CanDo(s: State, op: Op) {
    && Enabled(s.pool, op)
    && (op.LateReleaseOp? ==> Late(op.key, op.entry) in s.late)
    && (op.LateDiscardOp? ==> Late(op.key, op.entry) in s.late)
  }

  function After(lim: Limits, s: State, op: Op): State
    requires CanDo(s, op)
  {
    State(Apply(lim, s.pool, op),
          match op
          case ShutdownOp(_, _, _) => s.late + LeftBehind(s.pool)
          case LateReleaseOp(key, entry, _, _) => s.late - multiset{Late(key, entry)}
          case LateDiscardOp(key, entry, _) => s.late - multiset{Late(key, entry)}
          case _ => s.late)
  }

  ghost predicate Linked(lim: Limits, run: seq<State>, ops: seq<Op>, i: nat)
    requires i < |ops| && |run| == |ops| + 1
  {
    CanDo(run[i], ops[i]) && run[i + 1] == After(lim, run[i], ops[i])
  }

  /** A run starts with nothing live and no lease out, over whatever an earlier process left on disk. */
  ghost predicate IsRun(lim: Limits, run: seq<State>, ops: seq<Op>) {
    && |run| == |ops| + 1 && run[0].pool.live == map[] && run[0].late == multiset{}
    && forall i: nat :: i < |ops| ==> Linked(lim, run, ops, i)
  }

  /** Up to state i every late finalisation met its guard. */
  ghost predicate GuardedUpTo(run: seq<State>, ops: seq<Op>, i: nat)
    requires i <= |ops| && |run| == |ops| + 1
  {
    forall j :: 0 <= j < i ==> Guarded(run[j].pool, ops[j])
  }

  /** In every state reached with late finalisations meeting their guards, each live session has its record on
      disk, matching in session id, creation time and settings, even though any disk access may fail and shutdowns
      may come while leases are outstanding. */
  lemma {:induction false} RunKeepsAgreement(lim: Limits, run: seq<State>, ops: seq<Op>, i: nat)
    requires IsRun(lim, run, ops) && i < |run| && GuardedUpTo(run, ops, i)
    ensures Agreement(run[i].pool)
    decreases i
  {
    if i > 0 {
      RunKeepsAgreement(lim, run, ops, i - 1);
      assert Linked(lim, run, ops, i - 1);
      OpKeepsAgreement(lim, run[i - 1].pool, ops[i - 1]);
    }
  }

  // ---------- Limits ----------

  /** A grant puts one leased entry at the key; a refusal leaves the live sessions alone. */
  ghost predicate OneLease(p: Pool, key: string, r: Acquired) {
    && (r.result.Err? ==> r.pool.live == p.live)
    && (r.result.Ok? ==>
          && r.result.value.persistent && key in r.pool.live && r.pool.live[key].leased
          && r.pool.live == p.live[key := r.pool.live[key]])
  }

  lemma StoredLease(lim: Limits, p: Pool, key: string, spec: Spec, env: AcquireEnv, record: StoredSession)
    requires p.store.Some?
    ensures OneLease(p, key, AcquireStored(lim, p, key, spec, env, record))
  {
  }

  lemma MissingLease(lim: Limits, p: Pool, key: string, spec: Spec, env: AcquireEnv)
    ensures OneLease(p, key, AcquireMissing(lim, p, key, spec, env))
  {
    if p.store.Some? {
      var loaded := Load(p.store.value, key, env.load);
      if loaded.Ok? && loaded.value.Some? {
        StoredLease(lim, p, key, spec, env, loaded.value.value);
      }
    }
  }

  ghost predicate WithinLimits(lim: Limits, keys: set<string>) {
    && (lim.maxActive > 0 ==> |keys| <= lim.maxActive)
    && (lim.maxPerNamespace > 0 ==> forall n :: |InNamespace(keys, n)| <= lim.maxPerNamespace)
  }

  lemma FewerKeysFit(lim: Limits, keys: set<string>, fewer: set<string>)
    requires WithinLimits(lim, keys) && fewer <= keys
    ensures WithinLimits(lim, fewer)
  {
    SubsetSize(fewer, keys);
    forall n ensures |InNamespace(fewer, n)| <= |InNamespace(keys, n)| {
      SubsetSize(InNamespace(fewer, n), InNamespace(keys, n));
    }
  }

  lemma OneMoreKeyFits(lim: Limits, keys: set<string>, key: string)
    requires WithinLimits(lim, keys) && key !in keys && CapacityError(lim, keys, key) == None
    ensures WithinLimits(lim, keys + {key})
  {
    var own := SessionKeys.SessionNamespace(key);
    forall n ensures |InNamespace(keys + {key}, n)| == |InNamespace(keys, n)| + if n == own then 1 else 0 {
      assert InNamespace(keys + {key}, n) == InNamespace(keys, n) + if n == own then {key} else {};
    }
  }

  ghost predicate Bounded(lim: Limits, p: Pool) {
    WithinLimits(lim, p.live.Keys)
  }

  lemma OpKeepsLimits(lim: Limits, p: Pool, op: Op, p': Pool)
    requires Enabled(p, op) && Bounded(lim, p) && p' == Apply(lim, p, op)
    ensures Bounded(lim, p')
  {
    if op.AcquireOp? && op.key != "" && op.key !in p.live && CapacityError(lim, p.live.Keys, op.key) == None {
      MissingLease(lim, p, op.key, op.spec, op.acquire);
      OneMoreKeyFits(lim, p.live.Keys, op.key);
      FewerKeysFit(lim, p.live.Keys + {op.key}, p'.live.Keys);
    } else {
      FewerKeysFit(lim, p.live.Keys, p'.live.Keys);
    }
  }

  /** No run ever has more live sessions, in all or in one namespace, than the limits allow. */
  lemma {:induction false} RunKeepsLimits(lim: Limits, run: seq<State>, ops: seq<Op>, i: nat)
    requires IsRun(lim, run, ops) && i < |run|
    ensures Bounded(lim, run[i].pool)
    decreases i
  {
    if i > 0 {
      RunKeepsLimits(lim, run, ops, i - 1);
      StepKeepsLimits(lim, run, ops, i - 1);
    } else {
      EmptyIsBounded(lim, run[0].pool);
    }
  }

  lemma StepKeepsLimits(lim: Limits, run: seq<State>, ops: seq<Op>, i: nat)
    requires i < |ops| && |run| == |ops| + 1 && Linked(lim, run, ops, i) && Bounded(lim, run[i].pool)
    ensures Bounded(lim, run[i + 1].pool)
  {
    OpKeepsLimits(lim, run[i].pool, ops[i], run[i + 1].pool);
  }

  lemma EmptyIsBounded(lim: Limits, p: Pool)
    requires p.live == map[]
    ensures Bounded(lim, p)
  {
    assert p.live.Keys == {};
    forall n ensures InNamespace(p.live.Keys, n) == {} {
    }
  }

  // ---------- The identity of a persisted session ----------

  datatype Identity = Identity(sessionID: string, spec: Spec, createdAt: int)

  /** What a key stands for: its live session, else the record on disk. */
  function IdentityOf(p: Pool, k: string): Option<Identity> {
    if k in p.live then Some(Identity(p.live[k].sessionID, SpecForStorage(p.live[k].spec), p.live[k].createdAt))
    else if p.store.Some? then RecordIdentity(p.store.value, k)
    else None
  }

  function RecordIdentity(store: Store, k: string): Option<Identity> {
    if k in Records(store)
    then var r := Records(store)[k]; Some(Identity(r.sessionID, SpecForStorage(r.spec), r.createdAt))
    else None
  }

  predicate Creates(lim: Limits, p: Pool, op: Op, k: string) {
    op.AcquireOp? && op.key == k &&
    var r := Acquire(lim, p, op.key, op.spec, op.acquire).result; r.Ok? && r.value.created
  }

  lemma RecordAfterDelete(store: Store, key: string, io: Io, k: string)
    requires Delete(store, key, io).Ok?
    ensures RecordIdentity(Delete(store, key, io).value, k) ==
      if k == key && Persistent(store) then None else RecordIdentity(store, k)
  {
    PersistenceKept(store, key, StoredSession("", Spec("", "", "", "", "", false, [], "", "", ""), 0, 0), io);
    if Persistent(store) {
      DeleteRefines(store, key, io);
    }
  }

  lemma RecordAfterSave(store: Store, key: string, record: StoredSession, io: Io, k: string)
    requires Save(store, key, record, io).Ok?
    ensures RecordIdentity(Save(store, key, record, io).value, k) ==
      if k == key && Persistent(store) then
        Some(Identity(record.sessionID, SpecForStorage(record.spec), record.createdAt))
      else
        RecordIdentity(store, k)
  {
    PersistenceKept(store, key, record, io);
    if Persistent(store) {
      SaveRefines(store, key, record, io);
    }
  }

  function IdentityGiven(sid: string, spec: Spec, createdAt: int, now: int): Identity {
    Identity(sid, SpecForStorage(spec), if createdAt != ZERO_TIME then createdAt else now)
  }

  /** Finish gives the key the identity it was called with, or leaves the pool as it was; other keys keep theirs. */
  lemma FinishIdentity(p: Pool, key: string, spec: Spec, env: AcquireEnv, sid: string, createdAt: int, created: bool,
                       calls: seq<Call>, k: string)
    ensures var r := Finish(p, key, spec, env, sid, createdAt, created, calls);
      && (r.result.Err? ==> r.pool == p)
      && (r.result.Ok? ==>
            && r.result.value == Grant(sid, true, created) && key in r.pool.live && r.pool.live[key].spec == spec)
      && (r.result.Ok? ==> IdentityOf(r.pool, key) == Some(IdentityGiven(sid, spec, createdAt, env.now)))
      && (k != key ==> IdentityOf(r.pool, k) == IdentityOf(p, k))
      && (forall x :: x != key ==> (x in r.pool.live <==> x in p.live))
  {
    var entry := Live(spec, sid, if createdAt != ZERO_TIME then createdAt else env.now, env.now, true);
    if p.store.Some? && Save(p.store.value, key, RecordOf(entry, env.now), env.save).Ok? {
      RecordAfterSave(p.store.value, key, RecordOf(entry, env.now), env.save, k);
    }
  }

  /** What Acquire does to the identities: a grant that created nothing leaves every key as it was; a
      refusal leaves a key as it was or, at the requested key, may have dropped a record. */
  ghost predicate IdentityEffect(p: Pool, key: string, spec: Spec, r: Acquired, k: string) {
    && (k != key ==> IdentityOf(r.pool, k) == IdentityOf(p, k))
    && (r.result.Err? && k == key ==> IdentityOf(r.pool, k) == IdentityOf(p, k) || IdentityOf(r.pool, k) == None)
    && (r.result.Ok? ==>
          && key in r.pool.live && r.pool.live[key].spec == spec
          && r.pool.live[key].sessionID == r.result.value.sessionID)
    && (r.result.Ok? && !r.result.value.created && IdentityOf(p, key).Some?
         && IdentityOf(p, key).value.createdAt != ZERO_TIME ==>
          IdentityOf(r.pool, key) == IdentityOf(p, key))
  }

  lemma BuildIdentity(p: Pool, key: string, spec: Spec, env: AcquireEnv, createdAt: int, k: string)
    ensures IdentityEffect(p, key, spec, Build(p, key, spec, env, createdAt), k)
    ensures Build(p, key, spec, env, createdAt).result.Ok? ==> Build(p, key, spec, env, createdAt).result.value.created
  {
    if env.create.Created? {
      FinishIdentity(p, key, spec, env, env.create.sessionID, createdAt, true, [CallCreate(env.create.sessionID)], k);
    }
  }

  /** Building anew after the record may have gone. */
  lemma RebuiltIdentity(p: Pool, key: string, spec: Spec, env: AcquireEnv, k: string)
    requires p.store.Some? && key !in p.live && Delete(p.store.value, key, env.delete).Ok?
    ensures var p' := p.(store := Some(Delete(p.store.value, key, env.delete).value));
      var r := Build(p', key, spec, env, ZERO_TIME);
      && (k != key ==> IdentityOf(r.pool, k) == IdentityOf(p, k))
      && (IdentityOf(p', k) == IdentityOf(p, k) || (k == key && IdentityOf(p', k) == None))
      && IdentityEffect(p', key, spec, r, k)
      && (r.result.Ok? ==> r.result.value.created)
      && (r.result.Err? ==> r.pool == p')
  {
    var p' := p.(store := Some(Delete(p.store.value, key, env.delete).value));
    RecordAfterDelete(p.store.value, key, env.delete, k);
    BuildIdentity(p', key, spec, env, ZERO_TIME, k);
    if env.create.Created? {
      FinishIdentity(p', key, spec, env, env.create.sessionID, ZERO_TIME, true, [CallCreate(env.create.sessionID)], k);
    }
  }

  lemma SameSessionIdentity(p: Pool, key: string, spec: Spec, env: AcquireEnv, record: StoredSession, calls: seq<Call>,
      k: string)
    requires p.store.Some? && key !in p.live && PersistedSpecMatches(record.spec, spec)
    requires RecordIdentity(p.store.value, key)
      == Some(Identity(record.sessionID, SpecForStorage(record.spec), record.createdAt))
    ensures IdentityEffect(p, key, spec, Finish(p, key, spec, env, record.sessionID, record.createdAt, false, calls), k)
  {
    FinishIdentity(p, key, spec, env, record.sessionID, record.createdAt, false, calls, k);
  }

  lemma ResumedIdentity(p: Pool, key: string, spec: Spec, env: AcquireEnv, record: StoredSession, k: string)
    requires p.store.Some? && key !in p.live && PersistedSpecMatches(record.spec, spec)
    requires RecordIdentity(p.store.value, key)
      == Some(Identity(record.sessionID, SpecForStorage(record.spec), record.createdAt))
    ensures IdentityEffect(p, key, spec, ResumeStored(p, key, spec, env, record), k)
  {
    if !env.canResume {
      BuildIdentity(p, key, spec, env, record.createdAt, k);
    } else if env.resume == Resumed {
      SameSessionIdentity(p, key, spec, env, record, [CallResume(record.sessionID)], k);
    } else if env.resume == NotFound && Delete(p.store.value, key, env.delete).Ok? {
      RebuiltIdentity(p, key, spec, env, k);
    }
  }

  lemma StoredIdentity(lim: Limits, p: Pool, key: string, spec: Spec, env: AcquireEnv, record: StoredSession, k: string)
    requires p.store.Some? && key !in p.live
    requires RecordIdentity(p.store.value, key)
      == Some(Identity(record.sessionID, SpecForStorage(record.spec), record.createdAt))
    ensures IdentityEffect(p, key, spec, AcquireStored(lim, p, key, spec, env, record), k)
  {
    if PersistedSpecMatches(record.spec, spec) {
      ResumedIdentity(p, key, spec, env, record, k);
    }
    if Delete(p.store.value, key, env.delete).Ok? {
      RebuiltIdentity(p, key, spec, env, k);
    }
  }

  lemma AcquireIdentity(lim: Limits, p: Pool, key: string, spec: Spec, env: AcquireEnv, k: string)
    requires key != ""
    ensures IdentityEffect(p, key, spec, Acquire(lim, p, key, spec, env), k)
  {
    if key !in p.live && CapacityError(lim, p.live.Keys, key) == None {
      BuildIdentity(p, key, spec, env, ZERO_TIME, k);
      if p.store.Some? {
        var loaded := Load(p.store.value, key, env.load);
        ReadsRecords(p.store.value, env.load);
        if loaded.Ok? && loaded.value.Some? {
          StoredIdentity(lim, p, key, spec, env, loaded.value.value, k);
        }
      }
    }
  }

  lemma SweepIdentity(store: Store, keys: set<string>, env: string -> DestroyEnv, k: string)
    ensures DeleteRecords(Some(store), keys, env).Some?
    ensures var after := RecordIdentity(DeleteRecords(Some(store), keys, env).value, k);
      after == RecordIdentity(store, k) || (after == None && k in keys)
  {
  }

  lemma ExpireIdentity(lim: Limits, p: Pool, now: int, env: string -> DestroyEnv, k: string)
    requires Agreement(p)
    ensures var after := IdentityOf(Expire(lim, p, now, env), k); after == IdentityOf(p, k) || after == None
  {
    if p.store.Some? {
      SweepIdentity(p.store.value, StaleKeys(lim, p, now), env, k);
    }
  }

  lemma CloseIdentity(p: Pool, preserve: bool, ctxEnded: bool, env: string -> DestroyEnv, k: string)
    requires Agreement(p)
    ensures var after := IdentityOf(Close(p, preserve, ctxEnded, env), k); after == IdentityOf(p, k) || after == None
  {
    if p.store.Some? {
      SweepIdentity(p.store.value, FreeKeys(p, ctxEnded), env, k);
    }
  }

  function IdentityOfEntry(entry: Live): Identity {
    Identity(entry.sessionID, SpecForStorage(entry.spec), entry.createdAt)
  }

  /** A late release that is for another session than the one the key stands for. */
  predicate Replaces(p: Pool, op: Op, k: string) {
    op.LateReleaseOp? && op.key == k && IdentityOf(p, k) != Some(IdentityOfEntry(op.entry))
  }

  /** What a quiet operation can make of the identity of a key. */
  predicate QuietlyBecomes(p: Pool, op: Op, k: string, after: Option<Identity>) {
    after == IdentityOf(p, k) || after == None || (Replaces(p, op, k) && after == Some(IdentityOfEntry(op.entry)))
  }

  lemma LateOpIdentity(lim: Limits, p: Pool, op: Op, k: string)
    requires op.LateReleaseOp? || op.LateDiscardOp?
    ensures QuietlyBecomes(p, op, k, IdentityOf(Apply(lim, p, op), k))
  {
    match op
    case LateReleaseOp(key, entry, now, save) =>
      if p.store.Some? && Save(p.store.value, key, RecordOf(entry, now), save).Ok? {
        RecordAfterSave(p.store.value, key, RecordOf(entry, now), save, k);
      }
    case LateDiscardOp(key, entry, env) =>
      if p.store.Some? && Delete(p.store.value, key, env.delete).Ok? {
        RecordAfterDelete(p.store.value, key, env.delete, k);
      }
  }

  /** Operations other than Acquire leave what a key stands for unchanged, or end it, unless they are a late
      release for another session. */
  lemma QuietOpIdentity(lim: Limits, p: Pool, op: Op, k: string)
    requires Agreement(p) && Enabled(p, op) && !op.AcquireOp?
    ensures QuietlyBecomes(p, op, k, IdentityOf(Apply(lim, p, op), k))
  {
    match op
    case ReleaseOp(key, now, save) =>
      var entry := p.live[key].(lastUsed := now, leased := false);
      if p.store.Some? && Save(p.store.value, key, RecordOf(entry, now), save).Ok? {
        RecordAfterSave(p.store.value, key, RecordOf(entry, now), save, k);
      }
    case DiscardOp(key, env) =>
      if p.store.Some? && Delete(p.store.value, key, env.delete).Ok? {
        RecordAfterDelete(p.store.value, key, env.delete, k);
      }
    case ExpireOp(now, env) => ExpireIdentity(lim, p, now, env, k);
    case ShutdownOp(preserve, ctxEnded, env) => CloseIdentity(p, preserve, ctxEnded, env, k);
    case _ => LateOpIdentity(lim, p, op, k);
  }

  /** One operation leaves what a key stands for unchanged, or ends it, or is the very operation that
      creates a new session there or finalises a lease on another one late. */
  lemma OpKeepsIdentity(lim: Limits, p: Pool, op: Op, k: string)
    requires Agreement(p) && Enabled(p, op) && k != ""
    requires IdentityOf(p, k).Some? && IdentityOf(p, k).value.createdAt != ZERO_TIME
    ensures var after := IdentityOf(Apply(lim, p, op), k);
      after == IdentityOf(p, k) || after == None || Creates(lim, p, op, k) || Replaces(p, op, k)
  {
    if !op.AcquireOp? {
      QuietOpIdentity(lim, p, op, k);
    } else if op.key != "" {
      AcquireIdentity(lim, p, op.key, op.spec, op.acquire, k);
    }
  }

  // ---------- One session, one set of settings ----------

  /** Operation i of the run granted a lease at key k. */
  ghost predicate GrantsAt(lim: Limits, run: seq<State>, ops: seq<Op>, i: nat, k: string)
    requires i < |ops| && |run| == |ops| + 1
  {
    && ops[i].AcquireOp? && ops[i].key == k
    && Acquire(lim, run[i].pool, ops[i].key, ops[i].spec, ops[i].acquire).result.Ok?
  }

  /** After operation i and up to operation j, key k stands for a session, no new one is created there and no
      lease on another one is released late. */
  ghost predicate Lives(lim: Limits, run: seq<State>, ops: seq<Op>, i: nat, j: nat, k: string)
    requires i <= j < |ops| && |run| == |ops| + 1
    decreases j
  {
    || i == j
    || (&& Lives(lim, run, ops, i, j - 1, k) && IdentityOf(run[j].pool, k).Some?
        && !Creates(lim, run[j].pool, ops[j], k) && !Replaces(run[j].pool, ops[j], k))
  }

  lemma GrantShowsIdentity(lim: Limits, run: seq<State>, ops: seq<Op>, i: nat, k: string)
    requires IsRun(lim, run, ops) && i < |ops| && k != "" && GrantsAt(lim, run, ops, i, k)
    ensures k in run[i + 1].pool.live && run[i + 1].pool.live[k].spec == ops[i].spec
    ensures var g := Acquire(lim, run[i].pool, k, ops[i].spec, ops[i].acquire).result.value;
      IdentityOf(run[i + 1].pool, k) ==
        Some(Identity(g.sessionID, SpecForStorage(ops[i].spec), run[i + 1].pool.live[k].createdAt))
  {
    assert Linked(lim, run, ops, i);
    AcquireIdentity(lim, run[i].pool, k, ops[i].spec, ops[i].acquire, k);
  }

  lemma {:induction false} IdentityLasts(lim: Limits, run: seq<State>, ops: seq<Op>, i: nat, j: nat, k: string)
    requires IsRun(lim, run, ops) && i <= j < |ops| && k != "" && Lives(lim, run, ops, i, j, k)
      && GuardedUpTo(run, ops, j)
    requires IdentityOf(run[i + 1].pool, k).Some? && IdentityOf(run[i + 1].pool, k).value.createdAt != ZERO_TIME
    ensures IdentityOf(run[j + 1].pool, k) == IdentityOf(run[i + 1].pool, k) || IdentityOf(run[j + 1].pool, k) == None
    decreases j
  {
    if i < j {
      IdentityLasts(lim, run, ops, i, j - 1, k);
      assert IdentityOf(run[j].pool, k).Some?;
      RunKeepsAgreement(lim, run, ops, j);
      assert Linked(lim, run, ops, j);
      OpKeepsIdentity(lim, run[j].pool, ops[j], k);
    }
  }

  /** Operations i and j lease the session that lives at key k, and late finalisations up to then meet their guards. */
  ghost predicate LeasedTwice(lim: Limits, run: seq<State>, ops: seq<Op>, i: nat, j: nat, k: string) {
    && IsRun(lim, run, ops) && i < j < |ops| && k != "" && GuardedUpTo(run, ops, j)
    && GrantsAt(lim, run, ops, i, k) && GrantsAt(lim, run, ops, j, k) && Lives(lim, run, ops, i, j, k)
    && IdentityOf(run[i + 1].pool, k).Some? && IdentityOf(run[i + 1].pool, k).value.createdAt != ZERO_TIME
  }

  /** As long as a persisted session lives, across any number of shutdowns and resumes, all leases on it
      agree on the session id, the creation time and every setting but the credentials. */
  lemma LeasesAgreeOnSpec(lim: Limits, run: seq<State>, ops: seq<Op>, i: nat, j: nat, k: string)
    requires LeasedTwice(lim, run, ops, i, j, k)
    ensures AgreesExceptSecret(ops[i].spec, ops[j].spec)
    ensures k in run[i + 1].pool.live && k in run[j + 1].pool.live
    ensures run[j + 1].pool.live[k].createdAt == run[i + 1].pool.live[k].createdAt
    ensures run[j + 1].pool.live[k].sessionID == run[i + 1].pool.live[k].sessionID
  {
    GrantShowsIdentity(lim, run, ops, i, k);
    GrantShowsIdentity(lim, run, ops, j, k);
    IdentityLasts(lim, run, ops, i, j, k);
    StoredSpecAcceptsIff(ops[i].spec, ops[j].spec);
  }

  lemma LiveSpecIsKept(lim: Limits, p: Pool, op: Op, k: string)
    requires Enabled(p, op) && k in p.live && k in Apply(lim, p, op).live
    ensures Apply(lim, p, op).live[k].spec == p.live[k].spec
  {
    if op.AcquireOp? {
      AcquireKeepsOtherSpecs(lim, p, op.key, op.spec, op.acquire, k);
    }
  }

  lemma AcquireKeepsOtherSpecs(lim: Limits, p: Pool, key: string, spec: Spec, env: AcquireEnv, k: string)
    requires k in p.live
    ensures var p' := Acquire(lim, p, key, spec, env).pool; k in p'.live && p'.live[k].spec == p.live[k].spec
  {
  }

  lemma {:induction false} LiveSpecLasts(lim: Limits, run: seq<State>, ops: seq<Op>, i: nat, j: nat, k: string)
    requires IsRun(lim, run, ops) && i <= j < |run| && forall m :: i <= m <= j ==> k in run[m].pool.live
    ensures run[j].pool.live[k].spec == run[i].pool.live[k].spec
    decreases j
  {
    if i < j {
      LiveSpecLasts(lim, run, ops, i, j - 1, k);
      assert Linked(lim, run, ops, j - 1);
      LiveSpecIsKept(lim, run[j - 1].pool, ops[j - 1], k);
    }
  }

  /** While the entry stays in the pool of one process, leases agree on the credentials as well. */
  lemma LeasesAgreeOnSecret(lim: Limits, run: seq<State>, ops: seq<Op>, i: nat, j: nat, k: string)
    requires IsRun(lim, run, ops) && i < j < |ops| && k != ""
    requires GrantsAt(lim, run, ops, i, k) && GrantsAt(lim, run, ops, j, k)
    requires forall m :: i < m <= j + 1 ==> k in run[m].pool.live
    ensures ops[i].spec == ops[j].spec
  {
    GrantShowsIdentity(lim, run, ops, i, k);
    GrantShowsIdentity(lim, run, ops, j, k);
    LiveSpecLasts(lim, run, ops, i + 1, j + 1, k);
  }

  /** A grant says that the requested settings are those of the entry; so its permission mode, which the
      request got under the current server policy, is within that policy, whoever wrote the record. */
  lemma GrantWithinPolicy(lim: Limits, p: Pool, key: string, spec: Spec, env: AcquireEnv, requested: string,
      configured: string)
    requires key != "" && EffectivePermissionMode(requested, configured) == Ok(spec.permissionMode)
    requires Acquire(lim, p, key, spec, env).result.Ok?
    ensures var p' := Acquire(lim, p, key, spec, env).pool;
      && key in p'.live
      && PermissionModeRank(p'.live[key].spec.permissionMode) <= PermissionModeRank(ServerMode(configured))
  {
    AcquireIdentity(lim, p, key, spec, env, key);
    PermissionNeverEscalates(requested, configured);
  }
}
