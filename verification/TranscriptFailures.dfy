/** The two ways in which a conversation loses or repeats turns, and exactly when it does. */
module TranscriptFailures {
  import opened Prelude
  import opened SessionSpec
  import opened FileStore
  import opened SessionModel
  import opened SessionRuns
  import opened Prompt
  import opened Transcript
  import opened SessionLate

  /** What the session has been told once the message is sent makes up the whole transcript. */
  ghost predicate AnswersInFull(w: World, k: string)
    requires w.phase.Holding? && k in w.up
  {
    Sent(w, k).Ok? && Seen(w.up[k] + [Sent(w, k).value]) == UserTurns(w.transcript)
  }

  // ---------- A lease given back unused ----------

  /** Giving back a lease without having sent on it, followed by a request that reuses the session: the client
      is answered on its whole transcript if and only if the lease was not a freshly created one or there was
      nothing earlier to tell. */
  lemma AbandonedLeaseIff(lim: Limits, k: string, w: World, now: int, save: Io, env: AcquireEnv)
    requires k != "" && Inv(w, k) && w.phase.Holding? && k in w.pool.live && k in w.up
    requires Honest(w.up, k, env) && !env.ctxEnded
    ensures var w1 := w.(pool := Release(w.pool, k, now, save), phase := Idle);
      var spec := w.pool.live[k].spec;
      var w2 := Begun(w1, k, Acquire(lim, w1.pool, k, spec, env));
      && StepTo(lim, k, w, Abandon(now, save), w1)
      && Allowed(w1, k, Begin(spec, env)) && StepTo(lim, k, w1, Begin(spec, env), w2)
      && w2.phase.Holding? && k in w2.up
      && (AnswersInFull(w2, k) <==> !w.phase.grant.created || Told(w.transcript) == [])
  {
    var w1 := w.(pool := Release(w.pool, k, now, save), phase := Idle);
    var spec := w.pool.live[k].spec;
    var r := Acquire(lim, w1.pool, k, spec, env);
    assert IdentityOf(w.pool, k).Some?;
    assert r.result == Ok(Grant(k, true, false)) && r.calls == [];
    SendCompletes(Begun(w1, k, r), k);
  }

  // ---------- A failed session that survives its discard ----------

  /** From a lease: the send fails, leaving the session upstream told whatever it may; the lease is discarded; the
      next request is granted a lease on a session that the runtime still has. */
  ghost predicate FailsAndGoesOn(lim: Limits, k: string, w: World, told: Upstream, discard: DestroyEnv, spec: Spec,
                                 env: AcquireEnv, w': World)
    requires w.phase.Holding?
  {
    var failed := w.(up := told, phase := Failed(w.phase.entry));
    var (pool, calls) := Dropped(w.pool, k, w.phase.entry, discard);
    var idle := World(pool, AfterCalls(told, calls), w.transcript, Idle);
    && Allowed(w, k, SendFail(told)) && StepTo(lim, k, w, SendFail(told), failed)
    && StepTo(lim, k, failed, FinishFail(discard), idle)
    && Allowed(idle, k, Begin(spec, env)) && StepTo(lim, k, idle, Begin(spec, env), w')
    && w'.phase.Holding? && k in w'.up
  }

  lemma DeletedGoesOnInFull(lim: Limits, k: string, w: World, told: Upstream, discard: DestroyEnv, spec: Spec,
                            env: AcquireEnv, w': World)
    requires k != "" && Inv(w, k) && w.phase.Holding? && FailsAndGoesOn(lim, k, w, told, discard, spec, env, w')
    requires DeleteFrom(w.pool.store, k, discard.delete).Ok? || discard.upstreamDeletes
    ensures AnswersInFull(w', k)
  {
    var failed := w.(up := told, phase := Failed(w.phase.entry));
    var (pool, calls) := Dropped(w.pool, k, w.phase.entry, discard);
    var idle := World(pool, AfterCalls(told, calls), w.transcript, Idle);
    StepKeepsInv(lim, k, w, SendFail(told), failed);
    StepKeepsInv(lim, k, failed, FinishFail(discard), idle);
    StepKeepsInv(lim, k, idle, Begin(spec, env), w');
    SendCompletes(w', k);
  }

  lemma RoomAfterRemoval(lim: Limits, keys: set<string>, k: string)
    requires WithinLimits(lim, keys) && k in keys
    ensures CapacityError(lim, keys - {k}, k) == None
  {
    var own := SessionKeys.SessionNamespace(k);
    assert InNamespace(keys - {k}, own) == InNamespace(keys, own) - {k};
    assert k in InNamespace(keys, own);
  }

  /** A working disk and a runtime that resumes what it still has; the clock stands where the record was written. */
  function Resuming(now: int): AcquireEnv {
    AcquireEnv(now, false, DONE, DONE, DONE, true, Resumed, CreateFailed, true)
  }

  /** The key still stands for a session, live or on record, and the limits leave room to lease it again. */
  predicate CanComeBack(lim: Limits, p: Pool, k: string) {
    IdentityOf(p, k).Some? && CapacityError(lim, p.live.Keys - {k}, k) == None
  }

  lemma LiveCanComeBack(lim: Limits, p: Pool, k: string)
    requires Bounded(lim, p) && k in p.live
    ensures CanComeBack(lim, p, k)
  {
    RoomAfterRemoval(lim, p.live.Keys, k);
  }

  /** Where the deletion is refused, the record of the session is still on disk. */
  lemma RefusedKeepsRecord(w: World, k: string, discard: DestroyEnv)
    requires Inv(w, k) && IdentityOf(w.pool, k).Some? && DeleteFrom(w.pool.store, k, discard.delete).Err?
    ensures Indexed(w.pool) && !w.pool.store.value.disk.Garbage? && k in Records(w.pool.store.value)
    ensures Records(w.pool.store.value)[k].sessionID == k
    ensures k in w.pool.live ==> Agrees(w.pool.live[k], Records(w.pool.store.value)[k])
  {
    assert k in w.pool.live ==> Agrees(w.pool.live[k], Records(w.pool.store.value)[k]);
  }

  /** What the settings of a request must be to resume a record: those of the record itself. */
  lemma RecordsAreErased(store: Store, k: string)
    requires k in Records(store)
    ensures SpecForStorage(Records(store)[k].spec) == Records(store)[k].spec
  {
  }

  lemma ResumesRecord(lim: Limits, p: Pool, k: string, spec: Spec)
    requires k != "" && k !in p.live && CapacityError(lim, p.live.Keys, k) == None
    requires Indexed(p) && !p.store.value.disk.Garbage? && k in Records(p.store.value)
    requires Records(p.store.value)[k].spec == SpecForStorage(spec) && Records(p.store.value)[k].sessionID == k
    ensures var r := Acquire(lim, p, k, spec, Resuming(Records(p.store.value)[k].updatedAt));
      r.result == Ok(Grant(k, true, false)) && r.calls == [CallResume(k)] && k in r.pool.live
  {
    var record := Records(p.store.value)[k];
    var env := Resuming(record.updatedAt);
    ReadsRecords(p.store.value, DONE);
    assert Acquire(lim, p, k, spec, env) == AcquireStored(lim, p, k, spec, env, record);
    assert AcquireStored(lim, p, k, spec, env, record) ==
      Finish(p, k, spec, env, k, record.createdAt, false, [CallResume(k)]);
  }

  /** A refused discard only unmaps the session, if a shutdown has not done so before. */
  lemma RefusedLeaves(w: World, k: string, discard: DestroyEnv, told: Upstream)
    requires Inv(w, k) && w.phase.Holding?
    requires DeleteFrom(w.pool.store, k, discard.delete).Err? && !discard.upstreamDeletes
    ensures var (pool, calls) := Dropped(w.pool, k, w.phase.entry, discard);
      pool == Pool(w.pool.live - {k}, w.pool.store) && AfterCalls(told, calls) == told
  {
    OneCall(told, CallDelete(k, false));
    if k in w.pool.live {
      assert IdentityOf(w.pool, k).Some?;
      assert w.pool.live[k].sessionID == k;
    } else {
      assert w.pool.live - {k} == w.pool.live;
      assert w.phase.entry.sessionID == k;
    }
  }

  function LastContent(w: World): string
    requires EndsWithUser(w.transcript)
  {
    w.transcript[|w.transcript| - 1].content
  }

  /** A session that was told everything and is then granted again is told the last user turn twice. */
  lemma ToldTwice(w: World, k: string, w': World)
    requires EndsWithUser(w.transcript) && w'.transcript == w.transcript && w'.phase.Holding? && k in w'.up
    requires w'.phase.grant.persistent && !w'.phase.grant.created && Seen(w'.up[k]) == UserTurns(w.transcript)
    ensures Sent(w', k) == Ok(Latest(LastContent(w)))
    ensures Seen(w'.up[k] + [Sent(w', k).value]) == UserTurns(w.transcript) + [LastContent(w)]
  {
    SeenMore(w'.up[k], Latest(LastContent(w)));
  }

  /** The prompt of a failed send may have arrived nevertheless; if both deletions are refused and the session is
      then resumed, it is told the last user turn a second time. */
  lemma RefusedRepeatsTurn(lim: Limits, k: string, w: World, discard: DestroyEnv)
    returns (told: Upstream, spec: Spec, env: AcquireEnv, w': World)
    requires k != "" && Inv(w, k) && w.phase.Holding? && k in w.up && CanComeBack(lim, w.pool, k)
    requires DeleteFrom(w.pool.store, k, discard.delete).Err? && !discard.upstreamDeletes
    ensures FailsAndGoesOn(lim, k, w, told, discard, spec, env, w')
    ensures w'.transcript == w.transcript && Sent(w', k).Ok?
    ensures Seen(w'.up[k] + [Sent(w', k).value]) == UserTurns(w.transcript) + [LastContent(w)]
  {
    SendCompletes(w, k);
    RefusedKeepsRecord(w, k, discard);
    told := w.up[k := w.up[k] + [Sent(w, k).value]];
    var record := Records(w.pool.store.value)[k];
    spec := record.spec;
    RecordsAreErased(w.pool.store.value, k);
    env := Resuming(record.updatedAt);
    RefusedLeaves(w, k, discard, told);
    var pool := Pool(w.pool.live - {k}, w.pool.store);
    assert pool.live.Keys == w.pool.live.Keys - {k};
    ResumesRecord(lim, pool, k, spec);
    OneCall(told, CallResume(k));
    w' := GoesOn(lim, k, w, told, discard, spec, env, pool);
    ToldTwice(w, k, w');
  }

  /** A key that cannot come back: whatever is leased there next is a new session. */
  lemma GoneForGood(lim: Limits, k: string, w: World, told: Upstream, discard: DestroyEnv, spec: Spec, env: AcquireEnv,
      w': World)
    requires k != "" && Inv(w, k) && w.phase.Holding? && FailsAndGoesOn(lim, k, w, told, discard, spec, env, w')
    requires DeleteFrom(w.pool.store, k, discard.delete).Err? && !discard.upstreamDeletes
    requires !CanComeBack(lim, w.pool, k)
    ensures AnswersInFull(w', k)
  {
    RefusedLeaves(w, k, discard, told);
    var pool := Pool(w.pool.live - {k}, w.pool.store);
    assert pool.live.Keys == w.pool.live.Keys - {k};
    NamesKeptByRefusal(w, k);
    AcquireTells(lim, pool, k, spec, env, told);
    assert CapacityError(lim, pool.live.Keys, k) == None;
    assert IdentityOf(pool, k) == None;
    SendCompletes(w', k);
  }

  lemma NamesKeptByRefusal(w: World, k: string)
    requires Inv(w, k)
    ensures NamedByKey(Pool(w.pool.live - {k}, w.pool.store))
  {
    var pool := Pool(w.pool.live - {k}, w.pool.store);
    forall x | IdentityOf(pool, x).Some? ensures IdentityOf(pool, x).value.sessionID == x {
      assert x == k && k in w.pool.live && w.pool.store.Some? && k in Records(w.pool.store.value) ==>
        Agrees(w.pool.live[k], Records(w.pool.store.value)[k]);
      assert IdentityOf(w.pool, x).Some?;
    }
  }

  /** A failed send and a discard that take nothing away upstream, and the grant after them. */
  lemma GoesOn(lim: Limits, k: string, w: World, told: Upstream, discard: DestroyEnv, spec: Spec, env: AcquireEnv,
      pool: Pool)
    returns (w': World)
    requires w.phase.Holding? && Allowed(w, k, SendFail(told)) && k in told && Honest(told, k, env)
    requires var (p, calls) := Dropped(w.pool, k, w.phase.entry, discard); p == pool && AfterCalls(told, calls) == told
    requires var r := Acquire(lim, pool, k, spec, env);
      r.result.Ok? && k in r.pool.live && AfterCalls(told, r.calls) == told
    ensures FailsAndGoesOn(lim, k, w, told, discard, spec, env, w')
    ensures w'.phase.grant == Acquire(lim, pool, k, spec, env).result.value && w'.up == told
      && w'.transcript == w.transcript
  {
    w' := Begun(World(pool, told, w.transcript, Idle), k, Acquire(lim, pool, k, spec, env));
  }

  /** From a lease on a session that the runtime has, with or without a shutdown since it was granted: the client is
      answered in full after every failed send, discard and new lease if and only if the discard deletes the record or
      the session upstream, or the key cannot be leased again for want of a record or of room. */
  lemma DiscardSufficesIff(lim: Limits, k: string, w: World, discard: DestroyEnv)
    requires k != "" && Inv(w, k) && w.phase.Holding? && k in w.up
    ensures (forall told, spec, env, w' ::
              FailsAndGoesOn(lim, k, w, told, discard, spec, env, w') ==> AnswersInFull(w', k))
      <==> DeleteFrom(w.pool.store, k, discard.delete).Ok? || discard.upstreamDeletes || !CanComeBack(lim, w.pool, k)
  {
    if DeleteFrom(w.pool.store, k, discard.delete).Ok? || discard.upstreamDeletes || !CanComeBack(lim, w.pool, k) {
      forall told, spec, env, w' | FailsAndGoesOn(lim, k, w, told, discard, spec, env, w')
        ensures AnswersInFull(w', k)
      {
        if DeleteFrom(w.pool.store, k, discard.delete).Ok? || discard.upstreamDeletes {
          DeletedGoesOnInFull(lim, k, w, told, discard, spec, env, w');
        } else {
          GoneForGood(lim, k, w, told, discard, spec, env, w');
        }
      }
    } else {
      var told, spec, env, w' := RefusedRepeatsTurn(lim, k, w, discard);
      assert FailsAndGoesOn(lim, k, w, told, discard, spec, env, w');
      assert |UserTurns(w.transcript)| != |UserTurns(w.transcript) + [LastContent(w)]|;
    }
  }

  // ---------- In every run ----------

  /** The operation of the manager that a step is, if it is one. */
  function OpOf(w: World, k: string, s: Step): Option<Op> {
    match s
    case Begin(spec, env) => Some(AcquireOp(k, spec, env))
    case Abandon(now, save) => if w.phase.Holding? then Some(ReturnOp(w, k, w.phase.entry, now, save)) else None
    case FinishOk(now, save, _, _) => if w.phase.Answered? then Some(ReturnOp(w, k, w.phase.entry, now, save)) else None
    case FinishFail(env) =>
      if !w.phase.Failed? then None
      else Some(if k in w.pool.live then DiscardOp(k, env) else LateDiscardOp(k, w.phase.entry, env))
    case Other(op, _) => Some(op)
    case _ => None
  }

  function ReturnOp(w: World, k: string, entry: Live, now: int, save: Io): Op {
    if k in w.pool.live then ReleaseOp(k, now, save) else LateReleaseOp(k, entry, now, save)
  }

  lemma StepIsOp(lim: Limits, k: string, w: World, s: Step, w': World)
    requires Inv(w, k) && Allowed(w, k, s) && StepTo(lim, k, w, s, w')
    ensures var op := OpOf(w, k, s);
      if op.Some? then Enabled(w.pool, op.value) && w'.pool == Apply(lim, w.pool, op.value) else w'.pool == w.pool
  {
  }

  lemma {:induction false} RunStaysBounded(lim: Limits, k: string, run: seq<World>, steps: seq<Step>, i: nat)
    requires Transcript.IsRun(lim, k, run, steps) && i < |run|
    requires forall j :: 0 <= j < i ==> Good(run[j], k, steps[j])
    ensures Bounded(lim, run[i].pool)
    decreases i
  {
    if i == 0 {
      EmptyIsBounded(lim, run[0].pool);
    } else {
      RunStaysBounded(lim, k, run, steps, i - 1);
      Transcript.RunKeepsInv(lim, k, run, steps, i - 1);
      assert Transcript.Linked(lim, k, run, steps, i - 1);
      StepIsOp(lim, k, run[i - 1], steps[i - 1], run[i]);
      var op := OpOf(run[i - 1], k, steps[i - 1]);
      if op.Some? {
        OpKeepsLimits(lim, run[i - 1].pool, op.value, run[i].pool);
      }
    }
  }

  /** In every run, from every lease on a session that the runtime has: the client is answered in full after every
      failed send, discard and new lease if and only if the discard deletes the record or the session upstream, which
      is what its result tells; or a shutdown has unmapped the session since, and there is no record or no room to
      come back by. */
  lemma UndeletedSessionIff(lim: Limits, k: string, run: seq<World>, steps: seq<Step>, i: nat, discard: DestroyEnv)
    requires Transcript.IsRun(lim, k, run, steps) && i < |run|
    requires forall j :: 0 <= j < i ==> Good(run[j], k, steps[j])
    requires run[i].phase.Holding? && k in run[i].up
    ensures (forall told, spec, env, w' ::
        FailsAndGoesOn(lim, k, run[i], told, discard, spec, env, w') ==> AnswersInFull(w', k))
      <==> || DeleteFrom(run[i].pool.store, k, discard.delete).Ok? || discard.upstreamDeletes
           || !CanComeBack(lim, run[i].pool, k)
    ensures k in run[i].pool.live ==> CanComeBack(lim, run[i].pool, k)
  {
    Transcript.RunKeepsInv(lim, k, run, steps, i);
    RunStaysBounded(lim, k, run, steps, i);
    DiscardSufficesIff(lim, k, run[i], discard);
    if k in run[i].pool.live {
      LiveCanComeBack(lim, run[i].pool, k);
    }
  }

  // ---------- A turn told twice ----------

  /** The first request of a conversation, whatever turns it brings along: a new session, leased. */
  lemma FirstLease(k: string, spec: Spec, turns: seq<Turn>) returns (w0: World, w1: World)
    requires k != "" && EndsWithUser(turns)
    ensures w0 == World(Pool(map[], Some(Store("sessions.json", Document(map[])))), map[], turns, Idle)
    ensures Inv(w0, k) && Bounded(UNLIMITED, w0.pool)
    ensures Allowed(w0, k, Begin(spec, Forgetful(1, k))) && StepTo(UNLIMITED, k, w0, Begin(spec, Forgetful(1, k)), w1)
    ensures w1.phase.Holding? && w1.phase.grant.created && k in w1.pool.live && k in w1.up && w1.up[k] == []
    ensures w1.transcript == turns
  {
    w0 := World(Pool(map[], Some(Store("sessions.json", Document(map[])))), map[], turns, Idle);
    EmptyIsBounded(UNLIMITED, w0.pool);
    CreatesOverUsable(w0.pool, k, spec, 1, k);
    AcquireTells(UNLIMITED, w0.pool, k, spec, Forgetful(1, k), w0.up);
    w1 := Begun(w0, k, Acquire(UNLIMITED, w0.pool, k, spec, Forgetful(1, k)));
  }

  /** A disk that can be read but not written, and a runtime that does not delete. */
  const REFUSED := DestroyEnv(true, Io(true, false), false)

  lemma RefusedDeletion(w: World, k: string)
    requires Inv(w, k) && Indexed(w.pool) && k in w.pool.live
    ensures DeleteFrom(w.pool.store, k, REFUSED.delete).Err?
  {
    ReadsRecords(w.pool.store.value, REFUSED.delete);
    assert k in Records(w.pool.store.value);
  }

  /** After the first lease everything is in order, and deleting the session can be refused. */
  lemma FirstLeaseInOrder(k: string, spec: Spec, w0: World, w1: World)
    requires k != "" && Inv(w0, k) && Bounded(UNLIMITED, w0.pool) && Usable(w0.pool) && Fits(w0.pool, k, spec)
    requires Allowed(w0, k, Begin(spec, Forgetful(1, k)))
    requires StepTo(UNLIMITED, k, w0, Begin(spec, Forgetful(1, k)), w1) && k in w1.pool.live
    ensures Inv(w1, k) && Bounded(UNLIMITED, w1.pool) && DeleteFrom(w1.pool.store, k, REFUSED.delete).Err?
  {
    StepKeepsInv(UNLIMITED, k, w0, Begin(spec, Forgetful(1, k)), w1);
    OpKeepsLimits(UNLIMITED, w0.pool, AcquireOp(k, spec, Forgetful(1, k)), w1.pool);
    CreatesOverUsable(w0.pool, k, spec, 1, k);
    RefusedDeletion(w1, k);
  }

  lemma OneMoreStep(k: string, run: seq<World>, steps: seq<Step>, s: Step, w: World)
    returns (run': seq<World>, steps': seq<Step>)
    requires Transcript.IsRun(UNLIMITED, k, run, steps)
    requires Allowed(run[|steps|], k, s) && StepTo(UNLIMITED, k, run[|steps|], s, w)
    ensures Transcript.IsRun(UNLIMITED, k, run', steps') && run' == run + [w] && steps' == steps + [s]
  {
    run', steps' := run + [w], steps + [s];
    forall i: nat | i < |steps'| ensures Transcript.Linked(UNLIMITED, k, run', steps', i) {
      if i < |steps| {
        assert Transcript.Linked(UNLIMITED, k, run, steps, i);
      }
    }
  }

  lemma FirstLeaseRun(k: string, spec: Spec, turns: seq<Turn>) returns (run: seq<World>, steps: seq<Step>)
    requires k != "" && EndsWithUser(turns)
    ensures Transcript.IsRun(UNLIMITED, k, run, steps) && |steps| == 1 && steps[0].Begin?
    ensures var w := run[1];
      && Inv(w, k) && Bounded(UNLIMITED, w.pool) && w.phase.Holding? && k in w.pool.live && k in w.up
      && w.transcript == turns && w.phase.grant.created && w.up[k] == []
      && DeleteFrom(w.pool.store, k, REFUSED.delete).Err?
  {
    var w0, w1 := FirstLease(k, spec, turns);
    FirstLeaseInOrder(k, spec, w0, w1);
    run, steps := OneMoreStep(k, [w0], [], Begin(spec, Forgetful(1, k)), w1);
  }

  /** The same session, leased again after the failure, and what sending on it will tell. */
  predicate LeasedAgain(w: World, k: string, turn: Turn) {
    && w.phase.Holding? && k in w.up && w.transcript == [turn] && Sent(w, k).Ok?
    && Seen(w.up[k] + [Sent(w, k).value]) == [turn.content, turn.content]
  }

  lemma LeasedAfterRefusal(k: string, turn: Turn, w: World)
    returns (told: Upstream, spec: Spec, env: AcquireEnv, w': World)
    requires k != "" && IsUser(turn) && w.transcript == [turn]
    requires Inv(w, k) && Bounded(UNLIMITED, w.pool) && w.phase.Holding? && k in w.pool.live && k in w.up
    requires DeleteFrom(w.pool.store, k, REFUSED.delete).Err?
    ensures FailsAndGoesOn(UNLIMITED, k, w, told, REFUSED, spec, env, w') && LeasedAgain(w', k, turn)
  {
    OneUserTurn(turn);
    LiveCanComeBack(UNLIMITED, w.pool, k);
    told, spec, env, w' := RefusedRepeatsTurn(UNLIMITED, k, w, REFUSED);
  }

  lemma LeasedAgainRun(k: string, spec: Spec, turn: Turn) returns (run: seq<World>, steps: seq<Step>)
    requires k != "" && IsUser(turn)
    ensures Transcript.IsRun(UNLIMITED, k, run, steps) && |steps| == 4
    ensures steps[1].SendFail? && steps[2] == FinishFail(REFUSED) && steps[3].Begin?
    ensures LeasedAgain(run[4], k, turn)
  {
    run, steps := FirstLeaseRun(k, spec, [turn]);
    var told, again, env, w := LeasedAfterRefusal(k, turn, run[1]);
    run, steps := FailedAndGranted(k, run, steps, told, again, env, w);
  }

  /** A run in which the first and only user turn of a conversation is told twice: the prompt arrives, the send is
      reported as failed, both deletions are refused, and the next request resumes the session and succeeds. */
  lemma TurnToldTwice(k: string, spec: Spec, turn: Turn) returns (run: seq<World>, steps: seq<Step>)
    requires k != "" && IsUser(turn)
    ensures Transcript.IsRun(UNLIMITED, k, run, steps) && |steps| == 5
    ensures steps[1].SendFail? && steps[2] == FinishFail(REFUSED) && steps[3].Begin? && steps[4] == SendOk
    ensures run[5].transcript == [turn] && k in run[5].up && Seen(run[5].up[k]) == [turn.content, turn.content]
  {
    run, steps := LeasedAgainRun(k, spec, turn);
    run, steps := Succeeds(k, run, steps);
  }

  lemma Succeeds(k: string, run: seq<World>, steps: seq<Step>) returns (run': seq<World>, steps': seq<Step>)
    requires Transcript.IsRun(UNLIMITED, k, run, steps)
    requires var w := run[|steps|]; w.phase.Holding? && k in w.up && Sent(w, k).Ok?
    ensures Transcript.IsRun(UNLIMITED, k, run', steps') && steps' == steps + [SendOk]
    ensures var w, w' := run[|steps|], run'[|steps'|];
      w'.transcript == w.transcript && k in w'.up && w'.up[k] == w.up[k] + [Sent(w, k).value]
  {
    var w := run[|steps|];
    var sent := w.(up := w.up[k := w.up[k] + [Sent(w, k).value]], phase := Answered(w.phase.entry));
    run', steps' := OneMoreStep(k, run, steps, SendOk, sent);
  }

  lemma OneUserTurn(turn: Turn)
    requires IsUser(turn)
    ensures UserTurns([turn]) == [turn.content]
  {
    assert [turn][..0] == [];
  }

  /** The three steps from a lease over a failed send and its discard to a new lease. */
  lemma FailedAndGranted(k: string, run: seq<World>, steps: seq<Step>, told: Upstream, again: Spec, env: AcquireEnv,
      w: World)
    returns (run': seq<World>, steps': seq<Step>)
    requires Transcript.IsRun(UNLIMITED, k, run, steps) && run[|steps|].phase.Holding?
    requires FailsAndGoesOn(UNLIMITED, k, run[|steps|], told, REFUSED, again, env, w)
    ensures Transcript.IsRun(UNLIMITED, k, run', steps')
    ensures steps' == steps + [SendFail(told), FinishFail(REFUSED), Begin(again, env)] && run'[|steps'|] == w
  {
    var held := run[|steps|];
    var failed := held.(up := told, phase := Failed(held.phase.entry));
    var (pool, calls) := Dropped(held.pool, k, held.phase.entry, REFUSED);
    var idle := World(pool, AfterCalls(told, calls), held.transcript, Idle);
    run', steps' := OneMoreStep(k, run, steps, SendFail(told), failed);
    run', steps' := OneMoreStep(k, run', steps', FinishFail(REFUSED), idle);
    run', steps' := OneMoreStep(k, run', steps', Begin(again, env), w);
  }

  // ---------- Turns never told ----------

  /** Leased for a conversation, the session knows nothing, and only the last turn is about to be sent. */
  predicate KnowsNothing(w: World, k: string, turns: seq<Turn>)
    requires EndsWithUser(turns)
  {
    && w.phase.Holding? && k in w.up && w.transcript == turns
    && Sent(w, k) == Ok(Latest(turns[|turns| - 1].content)) && w.up[k] == []
  }

  /** The new session, given back unused and leased again for the same conversation. */
  lemma ReusedUnused(k: string, w: World) returns (now: int, spec: Spec, env: AcquireEnv, w1: World, w2: World)
    requires k != "" && Inv(w, k) && w.phase.Holding? && w.phase.grant.created && k in w.pool.live
    requires k in w.up && w.up[k] == []
    ensures Allowed(w, k, Abandon(now, DONE)) && StepTo(UNLIMITED, k, w, Abandon(now, DONE), w1)
    ensures Allowed(w1, k, Begin(spec, env)) && StepTo(UNLIMITED, k, w1, Begin(spec, env), w2)
    ensures KnowsNothing(w2, k, w.transcript)
  {
    now, spec, env := 1, w.pool.live[k].spec, Resuming(1);
    w1 := w.(pool := Release(w.pool, k, now, DONE), phase := Idle);
    var r := Acquire(UNLIMITED, w1.pool, k, spec, env);
    assert IdentityOf(w.pool, k).Some?;
    assert r.result == Ok(Grant(k, true, false)) && r.calls == [];
    w2 := Begun(w1, k, r);
  }

  /** The two steps from a lease over giving it back to a new lease. */
  lemma GivenBackAndGranted(k: string, run: seq<World>, steps: seq<Step>, now: int, again: Spec, env: AcquireEnv,
      w1: World, w2: World)
    returns (run': seq<World>, steps': seq<Step>)
    requires Transcript.IsRun(UNLIMITED, k, run, steps)
    requires var w := run[|steps|]; Allowed(w, k, Abandon(now, DONE)) && StepTo(UNLIMITED, k, w, Abandon(now, DONE), w1)
    requires Allowed(w1, k, Begin(again, env)) && StepTo(UNLIMITED, k, w1, Begin(again, env), w2)
    ensures Transcript.IsRun(UNLIMITED, k, run', steps')
    ensures steps' == steps + [Abandon(now, DONE), Begin(again, env)] && run'[|steps'|] == w2
  {
    run', steps' := OneMoreStep(k, run, steps, Abandon(now, DONE), w1);
    run', steps' := OneMoreStep(k, run', steps', Begin(again, env), w2);
  }

  lemma ReusedUnusedRun(k: string, spec: Spec, turns: seq<Turn>) returns (run: seq<World>, steps: seq<Step>)
    requires k != "" && EndsWithUser(turns)
    ensures Transcript.IsRun(UNLIMITED, k, run, steps) && |steps| == 3
    ensures steps[0].Begin? && steps[1].Abandon? && steps[2].Begin?
    ensures KnowsNothing(run[3], k, turns)
  {
    run, steps := FirstLeaseRun(k, spec, turns);
    var now, again, env, w1, w2 := ReusedUnused(k, run[1]);
    run, steps := GivenBackAndGranted(k, run, steps, now, again, env, w1, w2);
  }

  /** A run for any conversation that brings earlier user turns along: the session made for it is given back unused,
      the next request reuses it and succeeds, and the session has never been told the earlier turns. */
  lemma {:induction false} EarlierTurnsMissed(k: string, spec: Spec, turns: seq<Turn>)
    returns (run: seq<World>, steps: seq<Step>)
    requires k != "" && EndsWithUser(turns) && Told(turns) != []
    ensures Transcript.IsRun(UNLIMITED, k, run, steps) && |steps| == 4
    ensures steps[0].Begin? && steps[1].Abandon? && steps[2].Begin? && steps[3] == SendOk
    ensures run[4].transcript == turns && k in run[4].up
    ensures Seen(run[4].up[k]) == [turns[|turns| - 1].content] != UserTurns(turns)
  {
    run, steps := ReusedUnusedRun(k, spec, turns);
    var last := turns[|turns| - 1];
    SeenMore([], Latest(last.content));
    assert [] + [Latest(last.content)] == [Latest(last.content)];
    run, steps := Succeeds(k, run, steps);
    assert |UserTurns(turns)| == |Told(turns)| + 1;
  }
}
