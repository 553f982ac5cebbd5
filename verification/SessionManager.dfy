/** The session manager as the gateway runs it: a map of entries with locks, a file store, and leases
    that are finalised once. Each operation is tied to its function in SessionModel. */
module SessionManager {
  import opened Prelude
  import opened SessionSpec
  import FileStore
  import SM = SessionModel
  import SessionKeys

  class ManagedSession {
    const key: string
    const spec: Spec
    var sessionID: string
    var createdAt: int
    var lastUsed: int
    var locked: bool
    var ready: bool

    function Value(): SM.Live
      reads this
    {
      SM.Live(spec, sessionID, createdAt, lastUsed, locked)
    }

    /** A new entry is born locked, with its ready channel open. */
    constructor (key: string, spec: Spec)
      ensures this.key == key && this.spec == spec && locked && !ready
    {
      this.key, this.spec := key, spec;
      sessionID, createdAt, lastUsed := "", SM.ZERO_TIME, 0;
      locked, ready := true, false;
    }

    method TryLock() returns (ok: bool)
      modifies this`locked
      ensures ok == !old(locked) && locked
    {
      ok := !locked;
      locked := true;
    }

    method Unlock()
      requires locked
      modifies this`locked
      ensures !locked
    {
      locked := false;
    }

    method MarkReady()
      modifies this`ready
      ensures ready
    {
      ready := true;
    }
  }

  function ErrorOf<T>(r: Result<T, SM.AcquireError>): Option<SM.AcquireError> {
    if r.Ok? then None else Some(r.error)
  }

  ghost function Values(sessions: map<string, ManagedSession>): map<string, SM.Live>
    reads sessions.Values
  {
    map k | k in sessions :: sessions[k].Value()
  }

  /** Every entry knows the key it is mapped at. */
  ghost predicate Keyed(sessions: map<string, ManagedSession>) {
    forall k :: k in sessions ==> sessions[k].key == k && k != ""
  }

  lemma ValuesWithout(sessions: map<string, ManagedSession>, key: string)
    ensures Values(sessions - {key}) == Values(sessions) - {key}
  {
  }

  ghost function KeysOf(entries: seq<ManagedSession>): seq<string> {
    seq(|entries|, i requires 0 <= i < |entries| => entries[i].key)
  }

  /** One entry for each of the keys. */
  ghost predicate Listed(entries: seq<ManagedSession>, keys: set<string>) {
    NoDuplicates(KeysOf(entries)) && Elements(KeysOf(entries)) == keys
  }

  /** Each listed entry is the one mapped at its key. */
  ghost predicate From(entries: seq<ManagedSession>, sessions: map<string, ManagedSession>) {
    forall i :: 0 <= i < |entries| ==> entries[i].key in sessions && sessions[entries[i].key] == entries[i]
  }

  lemma ListOneMore(entries: seq<ManagedSession>, keys: set<string>, sessions: map<string, ManagedSession>, key: string)
    requires Listed(entries, keys) && From(entries, sessions)
    requires key !in keys && key in sessions && sessions[key].key == key
    ensures Listed(entries + [sessions[key]], keys + {key}) && From(entries + [sessions[key]], sessions)
    ensures sessions - keys - {key} == sessions - (keys + {key})
  {
    assert KeysOf(entries + [sessions[key]]) == KeysOf(entries) + [key];
  }

  /** Working through the list: the next entry is a new one. */
  lemma ListNext(entries: seq<ManagedSession>, keys: set<string>, done: set<string>, i: nat)
    requires Listed(entries, keys) && i < |entries| && Listed(entries[..i], done)
    ensures entries[i].key in keys && entries[i].key !in done
    ensures Listed(entries[..i + 1], done + {entries[i].key})
    ensures keys - done - {entries[i].key} == keys - (done + {entries[i].key})
  {
    assert KeysOf(entries)[i] == entries[i].key;
    assert KeysOf(entries[..i]) == KeysOf(entries)[..i];
    assert KeysOf(entries[..i + 1]) == KeysOf(entries)[..i] + [entries[i].key];
  }

  /** Half-way through the list: so many entries are done, their keys are these, and those keys are left. */
  ghost predicate Midway(entries: seq<ManagedSession>, keys: set<string>, i: nat, done: set<string>, left: set<string>)
  {
    && i <= |entries| && Listed(entries, keys) && Listed(entries[..i], done) && left == keys - done
  }

  lemma GoOn(entries: seq<ManagedSession>, keys: set<string>, i: nat, done: set<string>, left: set<string>)
    requires Midway(entries, keys, i, done, left) && i < |entries|
    ensures entries[i].key in keys && entries[i].key !in done && entries[i].key in left
    ensures Midway(entries, keys, i + 1, done + {entries[i].key}, left - {entries[i].key})
  {
    ListNext(entries, keys, done, i);
  }

  lemma AllDone(entries: seq<ManagedSession>, keys: set<string>, i: nat, done: set<string>, left: set<string>)
    requires Midway(entries, keys, i, done, left) && i >= |entries|
    ensures done == keys && left == {}
  {
    assert entries[..i] == entries;
  }

  /** A sweep that has still to look at rest has found the stale keys outside it. */
  ghost predicate Found(lim: SM.Limits, p: SM.Pool, now: int, rest: set<string>, gone: set<string>) {
    gone == SM.StaleKeys(lim, p, now) - rest
  }

  lemma LookedAt(lim: SM.Limits, p: SM.Pool, now: int, rest: set<string>, gone: set<string>, key: string)
    requires lim.ttl > 0 && key in rest && key in p.live && Found(lim, p, now, rest, gone)
    ensures key !in gone
    ensures Found(lim, p, now, rest - {key}, if SM.Stale(lim, p.live[key], now) then gone + {key} else gone)
  {
  }

  /** The entries have the given values, except that those of the given keys have been locked. */
  ghost predicate LockedSince(sessions: map<string, ManagedSession>, live: map<string, SM.Live>, keys: set<string>)
    reads sessions.Values
  {
    && sessions.Keys == live.Keys
    && forall k :: k in sessions ==> sessions[k].Value() == live[k].(leased := live[k].leased || k in keys)
  }

  lemma ValuesLeft(sessions: map<string, ManagedSession>, live: map<string, SM.Live>, lockedKeys: set<string>,
      keys: set<string>)
    requires LockedSince(sessions, live, lockedKeys) && lockedKeys <= keys
    ensures Values(sessions - keys) == live - keys
  {
  }

  lemma Restored<V>(m: map<string, V>, key: string, v: V)
    ensures (m - {key})[key := v] == m[key := v]
    ensures m[key := v] - {key} == m - {key}
  {
  }

  /** When only the entry at key has changed, so has what the map stands for. */
  lemma EntryChanged(sessions: map<string, ManagedSession>, live: map<string, SM.Live>, key: string)
    requires key in sessions && sessions.Keys == live.Keys
    requires forall k :: k in sessions && k != key ==> sessions[k].Value() == live[k]
    ensures Values(sessions) == live[key := sessions[key].Value()]
  {
  }

  class Manager {
    const limits: SM.Limits
    const store: FileStore.FileStore?
    var sessions: map<string, ManagedSession>

    ghost predicate Valid()
      reads this
    {
      Keyed(sessions)
    }

    ghost function Disk(): set<object>
    {
      if store == null then {} else {store}
    }

    ghost function StoreValue(): Option<FileStore.Store>
      reads Disk()
    {
      if store == null then None else Some(store.Value())
    }

    ghost function Pool(): SM.Pool
      reads this, sessions.Values, Disk()
    {
      SM.Pool(Values(sessions), StoreValue())
    }

    /** The pool as it is for everyone but the entry under construction at key. */
    ghost function Base(key: string): SM.Pool
      reads this, sessions.Values, Disk()
    {
      SM.Pool(Values(sessions - {key}), StoreValue())
    }

    constructor (limits: SM.Limits, store: FileStore.FileStore?)
      ensures Valid() && sessions == map[] && this.limits == limits && this.store == store
    {
      this.limits, this.store, sessions := limits, store, map[];
    }

    // ---------- Capacity ----------

    /** Counts the keys of a namespace in whatever order the map gives them. */
    method CountNamespace(namespace: string) returns (active: nat)
      ensures active == |SM.InNamespace(sessions.Keys, namespace)|
    {
      active := 0;
      var rest := sessions.Keys;
      while rest != {}
        invariant rest <= sessions.Keys
        invariant active == |SM.InNamespace(sessions.Keys - rest, namespace)|
      {
        var k :| k in rest;
        var seen := sessions.Keys - rest;
        assert sessions.Keys - (rest - {k}) == seen + {k};
        if SessionKeys.SessionNamespace(k) == namespace {
          assert SM.InNamespace(seen + {k}, namespace) == SM.InNamespace(seen, namespace) + {k};
          active := active + 1;
        } else {
          assert SM.InNamespace(seen + {k}, namespace) == SM.InNamespace(seen, namespace);
        }
        rest := rest - {k};
      }
      assert sessions.Keys - rest == sessions.Keys;
    }

    method ValidateCapacity(key: string) returns (error: Option<SM.AcquireError>)
      ensures error == SM.CapacityError(limits, sessions.Keys, key)
    {
      if limits.maxActive > 0 && |sessions| >= limits.maxActive {
        return Some(SM.TooManySessions);
      }
      if limits.maxPerNamespace <= 0 {
        return None;
      }
      var active := CountNamespace(SessionKeys.SessionNamespace(key));
      return if active >= limits.maxPerNamespace then Some(SM.TooManySessionsForNamespace) else None;
    }

    // ---------- Acquire: an entry under construction ----------

    /** The entry is in the map, locked and not ready: Acquire is building its session. */
    ghost predicate Building(key: string, entry: ManagedSession)
      reads this, entry
    {
      Valid() && key in sessions && sessions[key] == entry && entry.locked && !entry.ready
    }

    /** The lease is granted: the entry is mapped, locked and ready. */
    ghost predicate Granted(r: SM.Acquired, entry: ManagedSession, created: bool)
      reads this, sessions.Values, entry, Disk()
    {
      && Valid() && entry.key in sessions && sessions[entry.key] == entry && entry.locked && entry.ready
      && r == SM.Acquired(Pool(), Ok(SM.Grant(entry.sessionID, true, created)), r.calls)
    }

    /** The lease is refused: the entry is out of the map and its lock free, and nobody waits for it. */
    ghost predicate Refused(r: SM.Acquired, entry: ManagedSession, error: SM.AcquireError)
      reads this, sessions.Values, entry, Disk()
    {
      && Valid() && entry !in sessions.Values && !entry.locked && entry.ready
      && r == SM.Refuse(Pool(), error, r.calls)
    }

    ghost predicate Settled(r: SM.Acquired, entry: ManagedSession, created: bool, error: Option<SM.AcquireError>)
      reads this, sessions.Values, entry, Disk()
    {
      if error == None then Granted(r, entry, created) else Refused(r, entry, error.value)
    }

    /** Takes the entry out of the map again, gives its lock back and closes its ready channel. */
    method CleanupEntry(key: string, entry: ManagedSession)
      requires Building(key, entry)
      modifies this`sessions, entry
      ensures Valid() && Pool() == old(Base(key)) && entry.ready && !entry.locked && entry !in sessions.Values
    {
      sessions := sessions - {key};
      entry.Unlock();
      entry.MarkReady();
    }

    method SaveIndex(key: string, entry: ManagedSession, now: int, io: FileStore.Io)
      returns (error: Option<FileStore.StoreError>)
      modifies Disk()
      ensures SM.SaveTo(old(StoreValue()), key, SM.RecordOf(entry.Value(), now), io)
        == if error == None then Ok(StoreValue()) else Err(error.value)
      ensures error.Some? ==> StoreValue() == old(StoreValue())
      ensures Values(sessions) == old(Values(sessions)) && Base(key).live == old(Base(key).live)
    {
      if store == null {
        return None;
      }
      var record := FileStore.StoredSession(entry.sessionID, SpecForStorage(entry.spec), entry.createdAt, now);
      error := store.SaveRecord(key, record, io);
    }

    method DeleteIndex(key: string, io: FileStore.Io) returns (error: Option<FileStore.StoreError>)
      modifies Disk()
      ensures SM.DeleteFrom(old(StoreValue()), key, io) == if error == None then Ok(StoreValue()) else Err(error.value)
      ensures error.Some? ==> StoreValue() == old(StoreValue())
      ensures Values(sessions) == old(Values(sessions)) && Base(key).live == old(Base(key).live)
    {
      if store == null {
        return None;
      }
      error := store.DeleteRecord(key, io);
    }

    /** The entry under construction gets its session. */
    method Fill(key: string, entry: ManagedSession, sid: string, createdAt: int, now: int)
      requires Building(key, entry)
      modifies entry
      ensures Building(key, entry) && Base(key) == old(Base(key))
      ensures entry.Value() == SM.Live(entry.spec, sid, createdAt, now, true)
      ensures Values(sessions) == old(Base(key)).live[key := entry.Value()]
    {
      ghost var live := Values(sessions);
      ValuesWithout(sessions, key);
      entry.sessionID := sid;
      entry.createdAt := createdAt;
      entry.lastUsed := now;
      EntryChanged(sessions, live, key);
      ValuesWithout(sessions, key);
      Restored(live, key, entry.Value());
      assert StoreValue() == old(StoreValue());
    }

    method Open(key: string, entry: ManagedSession)
      requires Building(key, entry)
      modifies entry`ready
      ensures Valid() && entry.ready && Pool() == old(Pool())
    {
      entry.MarkReady();
      assert Values(sessions) == old(Values(sessions));
    }

    method Finish(key: string, entry: ManagedSession, env: SM.AcquireEnv, sid: string, createdAt: int, created: bool,
        ghost calls: seq<SM.Call>)
      returns (error: Option<SM.AcquireError>)
      requires Building(key, entry)
      modifies this`sessions, entry, Disk()
      ensures var finished := SM.Finish(old(Base(key)), key, entry.spec, env, sid, createdAt, created, calls);
        Settled(finished, entry, created, error)
    {
      ghost var r := SM.Finish(Base(key), key, entry.spec, env, sid, createdAt, created, calls);
      Fill(key, entry, sid, if createdAt != SM.ZERO_TIME then createdAt else env.now, env.now);
      var failed := SaveIndex(key, entry, env.now, env.save);
      if failed.Some? {
        CleanupEntry(key, entry);
        return Some(SM.StoreFailure(failed.value));
      }
      Open(key, entry);
      assert Pool() == r.pool;
      return None;
    }

    method Build(key: string, entry: ManagedSession, env: SM.AcquireEnv, createdAt: int)
      returns (error: Option<SM.AcquireError>, calls: seq<SM.Call>)
      requires Building(key, entry)
      modifies this`sessions, entry, Disk()
      ensures Settled(SM.Build(old(Base(key)), key, entry.spec, env, createdAt), entry, true, error)
      ensures calls == SM.Build(old(Base(key)), key, entry.spec, env, createdAt).calls
    {
      if env.create.CreateFailed? {
        CleanupEntry(key, entry);
        return Some(SM.UpstreamFailure), [];
      }
      calls := [SM.CallCreate(env.create.sessionID)];
      error := Finish(key, entry, env, env.create.sessionID, createdAt, true, calls);
    }

    method ResumeStored(key: string, entry: ManagedSession, env: SM.AcquireEnv, record: FileStore.StoredSession)
      returns (error: Option<SM.AcquireError>, created: bool, calls: seq<SM.Call>)
      requires Building(key, entry) && store != null
      modifies this`sessions, entry, Disk()
      ensures Settled(SM.ResumeStored(old(Base(key)), key, entry.spec, env, record), entry, created, error)
      ensures calls == SM.ResumeStored(old(Base(key)), key, entry.spec, env, record).calls
    {
      created, calls := true, [];
      if !env.canResume {
        error, calls := Build(key, entry, env, record.createdAt);
        return;
      }
      match env.resume
      case Resumed =>
        created, calls := false, [SM.CallResume(record.sessionID)];
        error := Finish(key, entry, env, record.sessionID, record.createdAt, false, calls);
      case ResumeFailed =>
        CleanupEntry(key, entry);
        error := Some(SM.UpstreamFailure);
      case NotFound =>
        var failed := DeleteIndex(key, env.delete);
        if failed.Some? {
          CleanupEntry(key, entry);
          error := Some(SM.StoreFailure(failed.value));
        } else {
          error, calls := Build(key, entry, env, SM.ZERO_TIME);
        }
    }

    method RemoveStored(key: string, record: FileStore.StoredSession, env: SM.AcquireEnv)
      returns (error: Option<SM.AcquireError>, calls: seq<SM.Call>)
      requires Valid() && store != null
      modifies Disk()
      ensures Valid() && (Base(key), error, calls) == SM.RemoveStored(old(Base(key)), key, record, env)
    {
      var failed := DeleteIndex(key, env.delete);
      if failed.Some? {
        return Some(SM.StoreFailure(failed.value)), [];
      }
      error := if env.upstreamDeletes then None else Some(SM.UpstreamFailure);
      calls := [SM.CallDelete(record.sessionID, env.upstreamDeletes)];
    }

    method AcquireStored(key: string, entry: ManagedSession, env: SM.AcquireEnv, record: FileStore.StoredSession)
      returns (error: Option<SM.AcquireError>, created: bool, calls: seq<SM.Call>)
      requires Building(key, entry) && store != null
      modifies this`sessions, entry, Disk()
      ensures Settled(SM.AcquireStored(limits, old(Base(key)), key, entry.spec, env, record), entry, created, error)
      ensures calls == SM.AcquireStored(limits, old(Base(key)), key, entry.spec, env, record).calls
    {
      created := true;
      if !PersistedSpecMatches(record.spec, entry.spec) {
        error, calls := RemoveStored(key, record, env);
        CleanupEntry(key, entry);
        return if error.Some? then error else Some(SM.SpecMismatch), created, calls;
      }
      if limits.ttl > 0 && env.now - record.updatedAt >= limits.ttl {
        error, calls := RemoveStored(key, record, env);
        if error.Some? {
          CleanupEntry(key, entry);
          return;
        }
        var more: seq<SM.Call>;
        error, more := Build(key, entry, env, SM.ZERO_TIME);
        calls := calls + more;
        return;
      }
      error, created, calls := ResumeStored(key, entry, env, record);
    }

    method AcquireMissing(key: string, entry: ManagedSession, env: SM.AcquireEnv)
      returns (error: Option<SM.AcquireError>, created: bool, calls: seq<SM.Call>)
      requires Building(key, entry)
      modifies this`sessions, entry, Disk()
      ensures Settled(SM.AcquireMissing(limits, old(Base(key)), key, entry.spec, env), entry, created, error)
      ensures calls == SM.AcquireMissing(limits, old(Base(key)), key, entry.spec, env).calls
    {
      created := true;
      if store != null {
        var loaded := store.LoadRecord(key, env.load);
        if loaded.Err? {
          CleanupEntry(key, entry);
          return Some(SM.StoreFailure(loaded.error)), created, [];
        }
        if loaded.value.Some? {
          error, created, calls := AcquireStored(key, entry, env, loaded.value.value);
          return;
        }
      }
      error, calls := Build(key, entry, env, SM.ZERO_TIME);
    }

    /** Puts a new entry, locked and not ready, into the map. */
    method Insert(key: string, spec: Spec) returns (entry: ManagedSession)
      requires Valid() && key != "" && key !in sessions
      modifies this`sessions
      ensures fresh(entry) && entry.spec == spec && Building(key, entry) && Base(key) == old(Pool())
    {
      entry := new ManagedSession(key, spec);
      sessions := sessions[key := entry];
      assert sessions - {key} == old(sessions);
    }

    // ---------- Acquire ----------

    /** The objects Acquire may change besides the map. */
    ghost function EntryAt(key: string): set<object>
      reads this
    {
      if key in sessions then {sessions[key]} else {}
    }

    /** Takes the lock of the entry at key and marks the entry as used. */
    method Reuse(key: string, env: SM.AcquireEnv) returns (ok: bool)
      requires Valid() && key in sessions
      modifies sessions[key]
      ensures Valid() && sessions[key].ready == old(sessions[key].ready)
      ensures ok == !(env.ctxEnded || old(sessions[key].locked))
      ensures !ok ==> Pool() == old(Pool())
      ensures ok ==> sessions[key].Value() == old(sessions[key].Value()).(lastUsed := env.now, leased := true)
      ensures ok ==> Pool() == old(Pool()).(live := old(Pool()).live[key := sessions[key].Value()])
    {
      var entry := sessions[key];
      if env.ctxEnded {
        return false;
      }
      ok := entry.TryLock();
      if ok {
        entry.lastUsed := env.now;
      }
      EntryChanged(sessions, old(Values(sessions)), key);
    }

    method AcquireLive(key: string, spec: Spec, env: SM.AcquireEnv)
      returns (lease: Lease?, error: Option<SM.AcquireError>)
      requires Valid() && key in sessions
      modifies sessions[key]
      ensures Valid() && sessions[key].ready == old(sessions[key].ready)
      ensures Outcome(SM.AcquireLive(old(Pool()), key, spec, env), key, lease, error)
      ensures lease != null ==> fresh(lease)
    {
      lease := null;
      ghost var r := SM.AcquireLive(Pool(), key, spec, env);
      var entry := sessions[key];
      if entry.spec != spec {
        return null, Some(SM.SpecMismatch);
      }
      var ok := Reuse(key, env);
      if !ok {
        return null, Some(SM.ContextEnded);
      }
      assert Pool() == r.pool;
      error := None;
      lease := new Lease(this, entry, entry.sessionID, false);
    }

    /** What the caller of Acquire gets: the pool of r and, exactly if r grants one, a lease that owns the lock
        of the entry mapped at key. */
    ghost predicate Outcome(r: SM.Acquired, key: string, lease: Lease?, error: Option<SM.AcquireError>)
      reads this, sessions.Values, Disk(), lease, if lease == null then {} else {lease.entry}
    {
      && Pool() == r.pool && error == ErrorOf(r.result) && (lease == null <==> error.Some?)
      && (lease != null ==> lease.Outstanding() && lease.manager == this && r.result == Ok(lease.Grant()))
      && (lease != null && lease.entry != null ==> key in sessions && sessions[key] == lease.entry)
      && (lease != null ==> (lease.entry == null <==> key == ""))
    }

    /** A missing entry is built under its lock; whatever goes wrong, the lock is given back. */
    method AcquireNew(key: string, spec: Spec, env: SM.AcquireEnv)
      returns (lease: Lease?, error: Option<SM.AcquireError>, calls: seq<SM.Call>, entry: ManagedSession)
      requires Valid() && key != "" && key !in sessions
      modifies this`sessions, Disk()
      ensures Valid() && fresh(entry) && entry.ready && (entry.locked <==> lease != null)
      ensures Outcome(SM.AcquireMissing(limits, old(Pool()), key, spec, env), key, lease, error)
      ensures calls == SM.AcquireMissing(limits, old(Pool()), key, spec, env).calls
      ensures lease != null ==> fresh(lease) && lease.entry == entry
    {
      entry := Insert(key, spec);
      ghost var r := SM.AcquireMissing(limits, Base(key), key, spec, env);
      var created: bool;
      error, created, calls := AcquireMissing(key, entry, env);
      lease := null;
      if error == None {
        lease := new Lease(this, entry, entry.sessionID, created);
      }
    }

    /** Acquire, as one step: the pool, the answer and the requests to the runtime are those of the model.
        The entry it may have made is locked only if a lease on it is handed out. */
    method Acquire(key: string, spec: Spec, env: SM.AcquireEnv)
      returns (lease: Lease?, error: Option<SM.AcquireError>, calls: seq<SM.Call>, ghost made: ManagedSession?)
      requires Valid()
      modifies this`sessions, EntryAt(key), Disk()
      ensures Valid()
      ensures Outcome(SM.Acquire(limits, old(Pool()), key, spec, env), key, lease, error)
      ensures calls == SM.Acquire(limits, old(Pool()), key, spec, env).calls
      ensures lease != null ==> fresh(lease)
      ensures lease != null && lease.entry != null ==> fresh(lease.entry) || lease.entry in old(EntryAt(key))
      ensures made != null ==> fresh(made) && made.ready && (made.locked <==> lease != null)
    {
      made := null;
      lease, error, calls := null, None, [];
      if key == "" {
        if env.create.CreateFailed? {
          error := Some(SM.UpstreamFailure);
        } else {
          calls := [SM.CallCreate(env.create.sessionID)];
          lease := new Lease(this, null, env.create.sessionID, true);
        }
        return;
      }
      if key in sessions {
        lease, error := AcquireLive(key, spec, env);
        return;
      }
      assert Pool().live.Keys == sessions.Keys;
      error := ValidateCapacity(key);
      if error == None {
        lease, error, calls, made := AcquireNew(key, spec, env);
      }
    }

    // ---------- Release and Discard ----------

    ghost predicate Maps(entry: ManagedSession)
      reads this
    {
      entry.key in sessions && sessions[entry.key] == entry
    }

    method ReleaseEntry(key: string, entry: ManagedSession, now: int, io: FileStore.Io)
      returns (error: Option<SM.AcquireError>)
      requires Valid() && entry.key == key && entry.locked
      modifies entry, Disk()
      ensures Valid() && !entry.locked
      ensures Maps(entry) ==> Pool() == SM.Release(old(Pool()), key, now, io)
      ensures !Maps(entry) ==> Pool() == SM.LateRelease(old(Pool()), key, old(entry.Value()), now, io)
      ensures error == SM.SaveError(old(StoreValue()), key, SM.RecordOf(old(entry.Value()), now), io)
    {
      entry.lastUsed := now;
      var failed := SaveIndex(key, entry, now, io);
      entry.Unlock();
      error := if failed == None then None else Some(SM.StoreFailure(failed.value));
      if Maps(entry) {
        EntryChanged(sessions, old(Values(sessions)), key);
      } else {
        assert Values(sessions) == old(Values(sessions));
      }
    }

    /** Closes the session, forgets its record and deletes it upstream; no failure stops the later steps. */
    method Destroy(entry: ManagedSession, env: SM.DestroyEnv)
      returns (error: Option<SM.AcquireError>, calls: seq<SM.Call>)
      modifies Disk()
      ensures StoreValue() == SM.DeleteQuietly(old(StoreValue()), entry.key, env.delete)
      ensures Values(sessions) == old(Values(sessions))
      ensures error == SM.DestroyError(old(StoreValue()), entry.key, entry.Value(), env)
      ensures calls == SM.DestroyCalls(entry.Value(), env)
    {
      error, calls := None, [];
      if !env.closes {
        error := Some(SM.UpstreamFailure);
      }
      var failed := DeleteIndex(entry.key, env.delete);
      if failed.Some? && error == None {
        error := Some(SM.StoreFailure(failed.value));
      }
      if entry.sessionID != "" {
        calls := [SM.CallDelete(entry.sessionID, env.upstreamDeletes)];
        if !env.upstreamDeletes && error == None {
          error := Some(SM.UpstreamFailure);
        }
      }
    }

    method DiscardEntry(key: string, entry: ManagedSession, env: SM.DestroyEnv)
      returns (error: Option<SM.AcquireError>, calls: seq<SM.Call>)
      requires Valid() && entry.key == key && entry.locked
      modifies this`sessions, entry`locked, Disk()
      ensures Valid() && !entry.locked && !Maps(entry)
      ensures old(Maps(entry)) ==> (Pool(), calls) == SM.Discard(old(Pool()), key, env)
      ensures !old(Maps(entry)) ==>
        Pool() == SM.LateDiscard(old(Pool()), key, env) && calls == SM.DestroyCalls(old(entry.Value()), env)
      ensures error == SM.DestroyError(old(StoreValue()), key, old(entry.Value()), env)
    {
      if key in sessions && sessions[key] == entry {
        sessions := sessions - {key};
        assert Values(sessions) == old(Values(sessions)) - {key};
      }
      error, calls := Destroy(entry, env);
      ghost var live := Values(sessions);
      entry.Unlock();
      assert Values(sessions) == live;
    }

    // ---------- Expiry and shutdown ----------

    /** One sweep over the map, in any order: entries that are stale and whose lock is free are locked and
        taken out. */
    method TakeStale(now: int) returns (stale: seq<ManagedSession>)
      requires Valid() && limits.ttl > 0
      modifies this`sessions, sessions.Values
      ensures Valid() && Listed(stale, SM.StaleKeys(limits, old(Pool()), now))
      ensures sessions == old(sessions) - SM.StaleKeys(limits, old(Pool()), now)
      ensures From(stale, old(sessions))
        && LockedSince(old(sessions), old(Values(sessions)), SM.StaleKeys(limits, old(Pool()), now))
    {
      stale := [];
      ghost var s0, p0 := sessions, Pool();
      ghost var gone: set<string> := {};
      var rest := sessions.Keys;
      while rest != {}
        invariant rest <= s0.Keys && sessions == s0 - gone
        invariant Found(limits, p0, now, rest, gone)
        invariant Listed(stale, gone)
        invariant From(stale, s0) && LockedSince(s0, p0.live, gone)
        decreases rest
      {
        var k :| k in rest;
        LookedAt(limits, p0, now, rest, gone, k);
        rest := rest - {k};
        var entry := sessions[k];
        var ok := TryTake(k, now, s0, p0.live, gone);
        if ok {
          ListOneMore(stale, gone, s0, k);
          stale := stale + [entry];
          gone := gone + {k};
        }
      }
      assert gone == SM.StaleKeys(limits, p0, now);
    }

    /** Locks a stale entry whose lock is free and takes it out of the map. */
    method TryTake(key: string, now: int, ghost sessions0: map<string, ManagedSession>,
        ghost live: map<string, SM.Live>, ghost gone: set<string>)
      returns (ok: bool)
      requires Keyed(sessions0) && sessions == sessions0 - gone && LockedSince(sessions0, live, gone) && key in sessions
      modifies this`sessions, sessions[key]
      ensures ok == SM.Stale(limits, live[key], now)
      ensures ok ==> sessions == sessions0 - (gone + {key}) && LockedSince(sessions0, live, gone + {key})
      ensures !ok ==> sessions == sessions0 - gone && LockedSince(sessions0, live, gone)
    {
      var entry := sessions[key];
      if now - entry.lastUsed < limits.ttl {
        return false;
      }
      ok := entry.TryLock();
      if ok {
        sessions := sessions - {key};
      }
    }

    /** Destroys entries that were taken out of the map and gives their locks back; reports the first error. */
    method DestroyAll(entries: seq<ManagedSession>, ghost keys: set<string>,
        ghost sessions0: map<string, ManagedSession>,
                      ghost live: map<string, SM.Live>, env: string -> SM.DestroyEnv)
      returns (error: Option<SM.AcquireError>, calls: seq<SM.Call>)
      requires Listed(entries, keys) && From(entries, sessions0) && LockedSince(sessions0, live, keys)
      requires Keyed(sessions0) && forall k :: k in keys ==> k in live && !live[k].leased
      modifies entries, Disk()
      ensures LockedSince(sessions0, live, {})
      ensures SM.Destroyed(old(StoreValue()), live, keys, env, StoreValue(), error, calls)
    {
      error, calls := None, [];
      ghost var done, held: set<string> := {}, keys;
      ghost var store0 := StoreValue();
      var i := 0;
      SM.NoneDestroyed(store0, live, env);
      assert entries[..0] == [];
      while i < |entries|
        invariant Midway(entries, keys, i, done, held)
        invariant LockedSince(sessions0, live, held)
        invariant SM.Destroyed(store0, live, done, env, StoreValue(), error, calls)
      {
        var entry := entries[i];
        GoOn(entries, keys, i, done, held);
        SM.DestroyedNext(store0, live, done, entry.key, env, StoreValue(), error, calls);
        var failed, more := DestroyOne(entry, env(entry.key), sessions0, live, held);
        error, calls := if error == None then failed else error, calls + more;
        i, done, held := i + 1, done + {entry.key}, held - {entry.key};
      }
      AllDone(entries, keys, i, done, held);
    }

    method DestroyOne(entry: ManagedSession, env: SM.DestroyEnv, ghost sessions0: map<string, ManagedSession>,
                      ghost live: map<string, SM.Live>, ghost taken: set<string>)
      returns (error: Option<SM.AcquireError>, calls: seq<SM.Call>)
      requires Keyed(sessions0) && LockedSince(sessions0, live, taken)
      requires entry.key in sessions0 && sessions0[entry.key] == entry && entry.key in taken && !live[entry.key].leased
      modifies entry, Disk()
      ensures LockedSince(sessions0, live, taken - {entry.key})
      ensures StoreValue() == SM.DeleteQuietly(old(StoreValue()), entry.key, env.delete)
      ensures error == SM.DestroyError(old(StoreValue()), entry.key, live[entry.key], env)
      ensures calls == SM.DestroyCalls(live[entry.key], env)
    {
      error, calls := Destroy(entry, env);
      entry.Unlock();
    }

    /** Destroys every stale entry whose lock is free: its session is asked to be deleted upstream, and no other is; an
        error is reported exactly if one was met. */
    method CleanupExpired(now: int, env: string -> SM.DestroyEnv)
      returns (error: Option<SM.AcquireError>, calls: seq<SM.Call>)
      requires Valid()
      modifies this`sessions, sessions.Values, Disk()
      ensures Valid() && Pool() == SM.Expire(limits, old(Pool()), now, env)
      ensures SM.Reports(error, old(StoreValue()), old(Pool()).live, SM.StaleKeys(limits, old(Pool()), now), env)
      ensures SM.DeletesUpstream(calls, old(Pool()).live, SM.StaleKeys(limits, old(Pool()), now), env)
      ensures forall e :: e in old(sessions.Values) ==> e.locked == old(e.locked)
    {
      SM.DeleteNone(StoreValue(), env);
      if limits.ttl <= 0 {
        return None, [];
      }
      var stale := TakeStale(now);
      error, calls := DestroyAll(stale, SM.StaleKeys(limits, old(Pool()), now), old(sessions), old(Values(sessions)),
        env);
      ValuesLeft(old(sessions), old(Values(sessions)), {}, SM.StaleKeys(limits, old(Pool()), now));
    }

    /** Empties the map. */
    method TakeAll() returns (entries: seq<ManagedSession>)
      requires Valid()
      modifies this`sessions
      ensures sessions == map[] && Listed(entries, old(sessions).Keys) && From(entries, old(sessions))
    {
      entries := [];
      ghost var s0, gone := sessions, {};
      while sessions != map[]
        invariant sessions == s0 - gone && gone <= s0.Keys && Listed(entries, gone) && From(entries, s0)
        decreases |sessions|
      {
        var key :| key in sessions;
        ListOneMore(entries, gone, s0, key);
        entries := entries + [sessions[key]];
        sessions := sessions - {key};
        gone := gone + {key};
      }
      assert gone == s0.Keys by {
        forall k | k in s0 ensures k in gone {
          assert k !in sessions;
        }
      }
    }

    method CloseOne(entry: ManagedSession, preserve: bool, ctxEnded: bool, env: SM.DestroyEnv,
                    ghost sessions0: map<string, ManagedSession>, ghost live: map<string, SM.Live>)
      returns (error: Option<SM.AcquireError>, calls: seq<SM.Call>)
      requires Keyed(sessions0) && LockedSince(sessions0, live, {}) && entry.key in sessions0
        && sessions0[entry.key] == entry
      modifies entry, Disk()
      ensures LockedSince(sessions0, live, {})
      ensures error == SM.CloseError(old(StoreValue()), entry.key, live[entry.key], preserve, ctxEnded, env)
      ensures StoreValue() == if preserve || !SM.Free(live[entry.key], ctxEnded) then old(StoreValue())
                              else SM.DeleteQuietly(old(StoreValue()), entry.key, env.delete)
      ensures calls == SM.CloseCalls(live[entry.key], preserve, ctxEnded, env)
    {
      calls := [];
      if ctxEnded {
        return Some(SM.ContextEnded), [];
      }
      var ok := entry.TryLock();
      if !ok {
        return Some(SM.ContextEnded), [];
      }
      assert LockedSince(sessions0, live, {entry.key});
      if preserve {
        error := if env.closes then None else Some(SM.UpstreamFailure);
        entry.Unlock();
      } else {
        error, calls := DestroyOne(entry, env, sessions0, live, {entry.key});
        assert {entry.key} - {entry.key} == {};
      }
    }

    method CloseAll(entries: seq<ManagedSession>, preserve: bool, ctxEnded: bool, env: string -> SM.DestroyEnv,
                    ghost sessions0: map<string, ManagedSession>, ghost p: SM.Pool)
      returns (error: Option<SM.AcquireError>, calls: seq<SM.Call>)
      requires Keyed(sessions0) && LockedSince(sessions0, p.live, {}) && p.store == StoreValue()
      requires Listed(entries, sessions0.Keys) && From(entries, sessions0)
      modifies entries, Disk()
      ensures LockedSince(sessions0, p.live, {})
      ensures StoreValue() == SM.ClosedIndex(p, sessions0.Keys, preserve, ctxEnded, env)
      ensures SM.ReportsClosing(error, p, sessions0.Keys, preserve, ctxEnded, env)
      ensures SM.DeletesUpstream(calls, p.live, sessions0.Keys * SM.ClosedFor(p, preserve, ctxEnded), env)
    {
      error, calls := None, [];
      ghost var done: set<string> := {};
      var i := 0;
      SM.CloseNone(p, preserve, ctxEnded, env);
      while i < |entries|
        invariant 0 <= i <= |entries| && Listed(entries[..i], done)
        invariant LockedSince(sessions0, p.live, {})
        invariant StoreValue() == SM.ClosedIndex(p, done, preserve, ctxEnded, env)
        invariant SM.ReportsClosing(error, p, done, preserve, ctxEnded, env)
        invariant SM.DeletesUpstream(calls, p.live, done * SM.ClosedFor(p, preserve, ctxEnded), env)
      {
        var entry := entries[i];
        ListNext(entries, sessions0.Keys, done, i);
        SM.CloseOneMore(p, done, entry.key, preserve, ctxEnded, env);
        SM.ReportsClosingOneMore(error, p, done, entry.key, preserve, ctxEnded, env);
        SM.ClosesOneMore(calls, p, done, entry.key, preserve, ctxEnded, env);
        var failed, more := CloseOne(entry, preserve, ctxEnded, env(entry.key), sessions0, p.live);
        error, calls := if error == None then failed else error, calls + more;
        done := done + {entry.key};
        i := i + 1;
      }
      assert entries[..i] == entries;
    }

    /** Shutdown: empties the map, then closes the sessions whose lock is to be had; locks held by leases stay
        with their leases. Unless the index is to be kept, exactly the sessions that were closed are asked to be deleted
        upstream; an error is reported exactly if one was met. */
    method CloseContext(preserve: bool, ctxEnded: bool, env: string -> SM.DestroyEnv)
      returns (error: Option<SM.AcquireError>, calls: seq<SM.Call>)
      requires Valid()
      modifies this`sessions, sessions.Values, Disk()
      ensures Valid() && Pool() == SM.Close(old(Pool()), preserve, ctxEnded, env)
      ensures SM.ReportsClosing(error, old(Pool()), old(sessions).Keys, preserve, ctxEnded, env)
      ensures SM.DeletesUpstream(calls, old(Pool()).live, SM.ClosedFor(old(Pool()), preserve, ctxEnded), env)
      ensures forall e :: e in old(sessions.Values) ==> e.locked == old(e.locked)
    {
      ghost var s0, p0 := sessions, Pool();
      var entries := TakeAll();
      error, calls := CloseAll(entries, preserve, ctxEnded, env, s0, p0);
      assert s0.Keys * SM.FreeKeys(p0, ctxEnded) == SM.FreeKeys(p0, ctxEnded);
      assert s0.Keys * SM.ClosedFor(p0, preserve, ctxEnded) == SM.ClosedFor(p0, preserve, ctxEnded);
    }
  }

  /** A lease on a session; the entry is null for a session that is not kept. */
  class Lease {
    const manager: Manager
    const entry: ManagedSession?
    const sessionID: string
    const created: bool
    var done: bool
    var finalErr: Option<SM.AcquireError>

    constructor (manager: Manager, entry: ManagedSession?, sessionID: string, created: bool)
      ensures this.manager == manager && this.entry == entry && this.sessionID == sessionID && this.created == created
      ensures !done
    {
      this.manager, this.entry, this.sessionID, this.created := manager, entry, sessionID, created;
      done, finalErr := false, None;
    }

    function Grant(): SM.Grant {
      SM.Grant(sessionID, entry != null, created)
    }

    /** Not finalised, and owner of the entry's lock. */
    ghost predicate Outstanding()
      reads this, if entry == null then {} else {entry}
    {
      !done && (entry != null ==> entry.locked && entry.sessionID == sessionID)
    }

    /** What a finalised lease leaves alone. */
    twostate predicate Untouched()
      reads this, manager, manager.sessions.Values, manager.Disk(), if entry == null then {} else {entry}
    {
      manager.Pool() == old(manager.Pool()) && (entry != null ==> entry.Value() == old(entry.Value()))
    }

    /** The first of any sequence of Release and Discard calls unlocks the entry; the others change nothing
        and repeat its answer. */
    method Release(now: int, io: FileStore.Io, closeError: Option<SM.AcquireError>)
      returns (error: Option<SM.AcquireError>)
      requires manager.Valid() && (!done ==> Outstanding())
      modifies this, if entry == null then {} else {entry}, manager.Disk()
      ensures manager.Valid() && done && error == finalErr
      ensures old(done) ==> finalErr == old(finalErr) && Untouched()
      ensures !old(done) && entry != null ==> !entry.locked
      ensures !old(done) && entry != null && manager.Maps(entry) ==>
        manager.Pool() == SM.Release(old(manager.Pool()), entry.key, now, io)
      ensures !old(done) && entry != null && !manager.Maps(entry) ==>
        manager.Pool() == SM.LateRelease(old(manager.Pool()), entry.key, old(entry.Value()), now, io)
      ensures !old(done) && entry != null ==>
        error == SM.SaveError(old(manager.StoreValue()), entry.key, SM.RecordOf(old(entry.Value()), now), io)
      ensures !old(done) && entry == null ==> manager.Pool() == old(manager.Pool()) && error == closeError
    {
      if !done {
        if entry == null {
          finalErr := closeError;
        } else {
          finalErr := manager.ReleaseEntry(entry.key, entry, now, io);
        }
        done := true;
      }
      return finalErr;
    }

    method Discard(env: SM.DestroyEnv, closeError: Option<SM.AcquireError>)
      returns (error: Option<SM.AcquireError>, calls: seq<SM.Call>)
      requires manager.Valid() && (!done ==> Outstanding())
      modifies this, manager`sessions, if entry == null then {} else {entry}, manager.Disk()
      ensures manager.Valid() && done && error == finalErr
      ensures old(done) ==> finalErr == old(finalErr) && Untouched() && calls == []
      ensures !old(done) && entry != null ==> !entry.locked && !manager.Maps(entry)
      ensures !old(done) && entry != null && old(manager.Maps(entry)) ==>
        (manager.Pool(), calls) == SM.Discard(old(manager.Pool()), entry.key, env)
      ensures !old(done) && entry != null && !old(manager.Maps(entry)) ==>
        manager.Pool() == SM.LateDiscard(old(manager.Pool()), entry.key, env)
      ensures !old(done) && entry != null ==>
        && calls == SM.DestroyCalls(old(entry.Value()), env)
        && error == SM.DestroyError(old(manager.StoreValue()), entry.key, old(entry.Value()), env)
      ensures !old(done) && entry == null ==> manager.Pool() == old(manager.Pool()) && error == closeError
    {
      calls := [];
      if !done {
        if entry == null {
          finalErr := closeError;
        } else {
          finalErr, calls := manager.DiscardEntry(entry.key, entry, env);
        }
        done := true;
      }
      return finalErr, calls;
    }
  }
}
