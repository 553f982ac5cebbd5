/** A client holding a conversation through the gateway: what its upstream session has been told, over any
    run of requests, failures, expiries, shutdowns and losses. */
module Transcript {
  import opened Prelude
  import opened SessionSpec
  import opened FileStore
  import opened SessionModel
  import opened SessionRuns
  import opened Prompt

  /** A message as sent: the conversation up to now, or the content of its last turn. */
  datatype Message = Whole(turns: seq<Turn>) | Latest(content: string)

  function Text(m: Message): string {
    match m
    case Whole(turns) => FullPrompt(turns)
    case Latest(content) => content
  }

  /** The whole conversation for a session that was just created, the latest user turn for one that goes on. */
  function SelectMessage(grant: Grant, turns: seq<Turn>): Result<Message, PromptError> {
    var last := LatestUserTurn(turns);
    if last.Err? then Err(last.error)
    else if grant.persistent && !grant.created then Ok(Latest(last.value.content))
    else Ok(Whole(turns))
  }

  function UserTurns(turns: seq<Turn>): seq<string> {
    if turns == [] then []
    else UserTurns(turns[..|turns| - 1]) + if IsUser(turns[|turns| - 1]) then [turns[|turns| - 1].content] else []
  }

  /** The user turns a session has been told, in the order it was told them. */
  function Seen(messages: seq<Message>): seq<string> {
    if messages == [] then []
    else
      var last := messages[|messages| - 1];
      Seen(messages[..|messages| - 1])
        + match last { case Whole(turns) => UserTurns(turns) case Latest(content) => [content] }
  }

  // ---------- The upstream runtime ----------

  type Upstream = map<string, seq<Message>>

  /** A created session starts empty; a deleted one is gone if the runtime carried the deletion out. */
  function AfterCall(up: Upstream, call: Call): Upstream {
    match call
    case CallCreate(sid) => up[sid := []]
    case CallResume(_) => up
    case CallDelete(sid, done) => if done then up - {sid} else up
  }

  function AfterCalls(up: Upstream, calls: seq<Call>): Upstream {
    if calls == [] then up else AfterCall(AfterCalls(up, calls[..|calls| - 1]), calls[|calls| - 1])
  }

  // ---------- One client and the rest of the world ----------

  /** Where the client's request is; from its lease on it has the entry that was leased. */
  datatype Phase = Idle | Holding(grant: Grant, entry: Live) | Answered(entry: Live) | Failed(entry: Live)

  datatype World = World(pool: Pool, up: Upstream, transcript: seq<Turn>, phase: Phase)

  datatype Step =
    | Begin(spec: Spec, begin: AcquireEnv)
    | Abandon(now: int, save: Io)
    | SendOk
    | SendFail(told: Upstream)
    | FinishOk(finished: int, refresh: Io, reply: Turn, next: Turn)
    | FinishFail(destroy: DestroyEnv)
    | Other(op: Op, after: Upstream)
    | LoseSession(sid: string)

  /** The runtime creates a session under the key it is asked for, and resumes none that it does not have;
      the gateway always passes a resume function. */
  predicate Honest(up: Upstream, key: string, env: AcquireEnv) {
    && env.canResume
    && (env.create.Created? ==> env.create.sessionID == key)
    && (env.resume == Resumed ==> key in up)
  }

  /** Everything else that uses the gateway: other keys, the reaper, shutdowns at any time, and other leases that
      outlive them and meet their guards. What it does to the session of k upstream is at most to delete it. */
  ghost predicate OtherAllowed(w: World, k: string, op: Op, after: Upstream) {
    && Enabled(w.pool, op) && Guarded(w.pool, op)
    && (k in after ==> k in w.up && after[k] == w.up[k])
    && match op
       case AcquireOp(key, _, env) => key != k && (key != "" ==> Honest(w.up, key, env))
       case ReleaseOp(key, _, _) => key != k
       case DiscardOp(key, _) => key != k
       case ExpireOp(_, _) => true
       case ShutdownOp(_, _, _) => true
       case LateReleaseOp(key, entry, _, _) => key != k && entry.sessionID == key
       case LateDiscardOp(key, _, _) => key != k
  }

  ghost predicate Allowed(w: World, k: string, s: Step) {
    match s
    case Begin(_, env) => w.phase == Idle && Honest(w.up, k, env)
    case Abandon(_, _) => w.phase.Holding?
    case SendOk => w.phase.Holding? && k in w.up
    case SendFail(told) => w.phase.Holding? && forall x :: x in told ==> x in w.up && (x != k ==> told[x] == w.up[x])
    case FinishOk(_, _, reply, next) => w.phase.Answered? && NormalizeRole(reply.role) == "assistant" && IsUser(next)
    case FinishFail(_) => w.phase.Failed?
    case Other(op, after) => OtherAllowed(w, k, op, after)
    case LoseSession(_) => true
  }

  function Sent(w: World, k: string): Result<Message, PromptError>
    requires w.phase.Holding?
  {
    SelectMessage(w.phase.grant, w.transcript)
  }

  /** Giving a lease back, in time or after a shutdown. */
  function Returned(p: Pool, k: string, entry: Live, now: int, save: Io): Pool {
    if k in p.live then Release(p, k, now, save) else LateRelease(p, k, entry, now, save)
  }

  function Dropped(p: Pool, k: string, entry: Live, env: DestroyEnv): (Pool, seq<Call>) {
    if k in p.live then Discard(p, k, env) else (LateDiscard(p, k, env), DestroyCalls(entry, env))
  }

  /** The world after an Acquire with result r. */
  function Begun(w: World, k: string, r: Acquired): World {
    World(r.pool, AfterCalls(w.up, r.calls), w.transcript,
          if r.result.Ok? && k in r.pool.live then Holding(r.result.value, r.pool.live[k]) else Idle)
  }

  ghost predicate StepTo(lim: Limits, k: string, w: World, s: Step, w': World)
    requires Allowed(w, k, s)
  {
    match s
    case Begin(spec, env) => w' == Begun(w, k, Acquire(lim, w.pool, k, spec, env))
    case Abandon(now, save) => w' == w.(pool := Returned(w.pool, k, w.phase.entry, now, save), phase := Idle)
    case SendOk =>
      Sent(w, k).Ok? && w' == w.(up := w.up[k := w.up[k] + [Sent(w, k).value]], phase := Answered(w.phase.entry))
    case SendFail(told) => w' == w.(up := told, phase := Failed(w.phase.entry))
    case FinishOk(now, save, reply, next) =>
      w' == World(Returned(w.pool, k, w.phase.entry, now, save), w.up, w.transcript + [reply, next], Idle)
    case FinishFail(env) =>
      var (p', calls) := Dropped(w.pool, k, w.phase.entry, env);
      w' == World(p', AfterCalls(w.up, calls), w.transcript, Idle)
    case Other(op, after) => w' == w.(pool := Apply(lim, w.pool, op), up := after)
    case LoseSession(sid) => w' == w.(up := w.up - {sid})
  }

  // ---------- The invariant ----------

  /** Sessions are kept under the key they were created for. */
  ghost predicate NamedByKey(p: Pool) {
    forall x :: IdentityOf(p, x).Some? ==> IdentityOf(p, x).value.sessionID == x
  }

  predicate EndsWithUser(turns: seq<Turn>) {
    turns != [] && IsUser(turns[|turns| - 1])
  }

  /** The user turns that have been answered. */
  function Told(turns: seq<Turn>): seq<string>
    requires turns != []
  {
    UserTurns(turns[..|turns| - 1])
  }

  /** The session of k, if the runtime still has it, has been told exactly these turns. */
  predicate Knows(w: World, k: string, told: seq<string>) {
    k in w.up ==> Seen(w.up[k]) == told
  }

  ghost predicate Leased(p: Pool, k: string) {
    k in p.live && p.live[k].leased
  }

  /** The client has the lease on k: the entry in the pool, if it is still there, is locked. */
  ghost predicate HeldAs(p: Pool, k: string, entry: Live) {
    entry.sessionID == k && (k in p.live ==> p.live[k].leased)
  }

  ghost predicate PhaseInv(w: World, k: string)
    requires EndsWithUser(w.transcript)
  {
    match w.phase
    case Idle => !Leased(w.pool, k) && (IdentityOf(w.pool, k).Some? ==> Knows(w, k, Told(w.transcript)))
    case Holding(grant, entry) =>
      HeldAs(w.pool, k, entry) && grant.persistent && Knows(w, k, if grant.created then [] else Told(w.transcript))
    case Answered(entry) => HeldAs(w.pool, k, entry) && Knows(w, k, UserTurns(w.transcript))
    case Failed(entry) => HeldAs(w.pool, k, entry)
  }

  ghost predicate Inv(w: World, k: string) {
    Agreement(w.pool) && NamedByKey(w.pool) && EndsWithUser(w.transcript) && PhaseInv(w, k)
  }

  // ---------- What Acquire does to the session upstream ----------

  /** A grant that created the session leaves it empty upstream; any other grant is for the session the key
      stood for and does nothing to it. A refusal does nothing upstream, unless the key stands for nothing
      any more. */
  ghost predicate Tells(p: Pool, key: string, up: Upstream, r: Acquired) {
    var up' := AfterCalls(up, r.calls);
    && (r.result.Ok? ==> r.result.value.persistent && Leased(r.pool, key) && r.result.value.sessionID == key)
    && (r.result.Ok? && r.result.value.created ==> key in up' && up'[key] == [])
    && (r.result.Ok? && !r.result.value.created ==> up' == up && IdentityOf(p, key).Some?)
    && (r.result.Err? ==> r.pool.live == p.live && (up' == up || IdentityOf(r.pool, key) == None))
  }

  lemma {:induction false} OneCall(up: Upstream, call: Call)
    ensures AfterCalls(up, [call]) == AfterCall(up, call)
  {
    assert [call][..0] == [];
  }

  lemma {:induction false} MoreCalls(up: Upstream, a: seq<Call>, b: seq<Call>)
    ensures AfterCalls(up, a + b) == AfterCalls(AfterCalls(up, a), b)
  {
    if b == [] {
      assert a + b == a;
    } else {
      var front := b[..|b| - 1];
      assert (a + b)[..|a + b| - 1] == a + front;
      MoreCalls(up, a, front);
    }
  }

  lemma BuildTells(p: Pool, key: string, spec: Spec, env: AcquireEnv, createdAt: int, up: Upstream)
    requires key !in p.live && IdentityOf(p, key) == None && (env.create.Created? ==> env.create.sessionID == key)
    ensures Tells(p, key, up, Build(p, key, spec, env, createdAt))
  {
    OneCall(up, CallCreate(key));
  }

  lemma ForgottenIdentity(p: Pool, key: string, io: Io)
    requires p.store.Some? && key !in p.live && DeleteFrom(p.store, key, io).Ok?
    ensures IdentityOf(p.(store := DeleteFrom(p.store, key, io).value), key) == None
  {
    RecordAfterDelete(p.store.value, key, io, key);
  }

  lemma ResumeTells(p: Pool, key: string, spec: Spec, env: AcquireEnv, record: StoredSession, up: Upstream)
    requires p.store.Some? && key !in p.live && IdentityOf(p, key).Some? && record.sessionID == key
    requires Honest(up, key, env)
    ensures Tells(p, key, up, ResumeStored(p, key, spec, env, record))
  {
    OneCall(up, CallResume(key));
    if env.resume == NotFound && DeleteFrom(p.store, key, env.delete).Ok? {
      ForgottenIdentity(p, key, env.delete);
      BuildTells(p.(store := DeleteFrom(p.store, key, env.delete).value), key, spec, env, ZERO_TIME, up);
    }
  }

  lemma RemoveTells(p: Pool, key: string, spec: Spec, env: AcquireEnv, record: StoredSession, up: Upstream)
    requires p.store.Some? && key !in p.live && Honest(up, key, env)
    ensures var (p', failed, calls) := RemoveStored(p, key, record, env);
      && (failed.Some? ==> Tells(p, key, up, Refuse(p', failed.value, calls)))
      && Tells(p, key, up, Refuse(p', SpecMismatch, calls))
      && (failed == None ==>
            var built := Build(p', key, spec, env, ZERO_TIME);
            Tells(p, key, up, built.(calls := calls + built.calls)))
  {
    var (p', failed, calls) := RemoveStored(p, key, record, env);
    if DeleteFrom(p.store, key, env.delete).Ok? {
      ForgottenIdentity(p, key, env.delete);
      var built := Build(p', key, spec, env, ZERO_TIME);
      BuildTells(p', key, spec, env, ZERO_TIME, AfterCalls(up, calls));
      MoreCalls(up, calls, built.calls);
    }
  }

  lemma StoredTells(lim: Limits, p: Pool, key: string, spec: Spec, env: AcquireEnv, record: StoredSession, up: Upstream)
    requires p.store.Some? && key !in p.live && IdentityOf(p, key).Some? && record.sessionID == key
      && Honest(up, key, env)
    ensures Tells(p, key, up, AcquireStored(lim, p, key, spec, env, record))
  {
    ResumeTells(p, key, spec, env, record, up);
    RemoveTells(p, key, spec, env, record, up);
  }

  lemma AcquireTells(lim: Limits, p: Pool, key: string, spec: Spec, env: AcquireEnv, up: Upstream)
    requires key != "" && Honest(up, key, env) && NamedByKey(p)
    ensures Tells(p, key, up, Acquire(lim, p, key, spec, env))
  {
    if key in p.live {
      assert IdentityOf(p, key).Some?;
    } else if CapacityError(lim, p.live.Keys, key) == None {
      if p.store == None {
        BuildTells(p, key, spec, env, ZERO_TIME, up);
      } else {
        var loaded := Load(p.store.value, key, env.load);
        ReadsRecords(p.store.value, env.load);
        if loaded.Ok? && loaded.value == None {
          BuildTells(p, key, spec, env, ZERO_TIME, up);
        } else if loaded.Ok? {
          assert IdentityOf(p, key).Some?;
          StoredTells(lim, p, key, spec, env, loaded.value.value, up);
        }
      }
    }
  }

  // ---------- Names ----------

  lemma AcquireKeepsNames(lim: Limits, p: Pool, key: string, spec: Spec, env: AcquireEnv, up: Upstream)
    requires NamedByKey(p) && (key != "" ==> Honest(up, key, env))
    ensures NamedByKey(Acquire(lim, p, key, spec, env).pool)
  {
    var r := Acquire(lim, p, key, spec, env);
    if key != "" {
      AcquireTells(lim, p, key, spec, env, up);
      forall x | IdentityOf(r.pool, x).Some? ensures IdentityOf(r.pool, x).value.sessionID == x {
        AcquireIdentity(lim, p, key, spec, env, x);
      }
    }
  }

  lemma QuietOpKeepsNames(lim: Limits, p: Pool, op: Op)
    requires Agreement(p) && NamedByKey(p) && Enabled(p, op) && !op.AcquireOp?
    requires op.LateReleaseOp? ==> op.entry.sessionID == op.key
    ensures NamedByKey(Apply(lim, p, op))
  {
    forall x | IdentityOf(Apply(lim, p, op), x).Some? ensures IdentityOf(Apply(lim, p, op), x).value.sessionID == x {
      QuietOpIdentity(lim, p, op, x);
    }
  }

  // ---------- Steps ----------

  lemma {:induction false} UserTurnsMore(turns: seq<Turn>, turn: Turn)
    ensures UserTurns(turns + [turn]) == UserTurns(turns) + if IsUser(turn) then [turn.content] else []
  {
    assert (turns + [turn])[..|turns|] == turns;
  }

  lemma {:induction false} SeenMore(log: seq<Message>, m: Message)
    ensures Seen(log + [m])
      == Seen(log) + match m { case Whole(turns) => UserTurns(turns) case Latest(content) => [content] }
  {
    assert (log + [m])[..|log|] == log;
  }

  /** A reply and a further user turn: everything said so far has been answered. */
  lemma {:induction false} NextRound(turns: seq<Turn>, reply: Turn, next: Turn)
    requires NormalizeRole(reply.role) == "assistant" && IsUser(next)
    ensures EndsWithUser(turns + [reply, next]) && Told(turns + [reply, next]) == UserTurns(turns)
  {
    var longer := turns + [reply, next];
    assert longer[..|longer| - 1] == turns + [reply];
    UserTurnsMore(turns, reply);
  }

  /** What a success tells the session on top of what it knew makes up the whole transcript. */
  lemma SendCompletes(w: World, k: string)
    requires EndsWithUser(w.transcript) && w.phase.Holding? && w.phase.grant.persistent && k in w.up
    ensures Sent(w, k).Ok?
    ensures var told := Seen(w.up[k] + [Sent(w, k).value]);
      told == UserTurns(w.transcript) <==> Seen(w.up[k]) == if w.phase.grant.created then [] else Told(w.transcript)
  {
    var turns := w.transcript;
    var front, last := turns[..|turns| - 1], turns[|turns| - 1];
    assert turns == front + [last];
    UserTurnsMore(front, last);
    SeenMore(w.up[k], Sent(w, k).value);
    var seen := Seen(w.up[k]);
    if w.phase.grant.created {
      assert seen + UserTurns(turns) == UserTurns(turns) <==> seen == [] by {
        assert |seen + UserTurns(turns)| == |seen| + |UserTurns(turns)|;
      }
    } else {
      assert UserTurns(turns) == Told(turns) + [last.content];
      assert (seen + [last.content])[..|seen|] == seen;
      assert (Told(turns) + [last.content])[..|Told(turns)|] == Told(turns);
    }
  }

  /** The two ways a client can be let down: a session made for it is given back unused although there are
      earlier turns to be told, or a failed session can be neither forgotten nor deleted. */
  predicate Good(w: World, k: string, s: Step)
  {
    match s
    case Abandon(_, _) => w.phase.Holding? && w.transcript != [] && (w.phase.grant.created ==> Told(w.transcript) == [])
    case FinishFail(env) => DeleteFrom(w.pool.store, k, env.delete).Ok? || env.upstreamDeletes
    case _ => true
  }

  lemma BeginKeepsInv(lim: Limits, k: string, w: World, spec: Spec, env: AcquireEnv, w': World)
    requires k != "" && Inv(w, k) && Allowed(w, k, Begin(spec, env)) && StepTo(lim, k, w, Begin(spec, env), w')
    ensures Inv(w', k)
  {
    AcquireKeepsAgreement(lim, w.pool, k, spec, env);
    AcquireKeepsNames(lim, w.pool, k, spec, env, w.up);
    AcquireTells(lim, w.pool, k, spec, env, w.up);
    AcquireIdentity(lim, w.pool, k, spec, env, k);
  }

  lemma ReleaseKeepsInv(lim: Limits, k: string, w: World, entry: Live, now: int, save: Io, w': World)
    requires Agreement(w.pool) && NamedByKey(w.pool) && EndsWithUser(w.transcript) && EndsWithUser(w'.transcript)
    requires HeldAs(w.pool, k, entry)
    requires w'.phase == Idle && w'.pool == Returned(w.pool, k, entry, now, save) && w'.up == w.up
    requires Knows(w, k, Told(w'.transcript))
    ensures Inv(w', k)
  {
    var op := if k in w.pool.live then ReleaseOp(k, now, save) else LateReleaseOp(k, entry, now, save);
    assert Enabled(w.pool, op) && w'.pool == Apply(lim, w.pool, op);
    OpKeepsAgreement(lim, w.pool, op);
    QuietOpKeepsNames(lim, w.pool, op);
  }

  lemma DroppedIdentity(p: Pool, k: string, entry: Live, env: DestroyEnv)
    requires DeleteFrom(p.store, k, env.delete).Ok?
    ensures IdentityOf(Dropped(p, k, entry, env).0, k) == None
  {
    if p.store.Some? {
      RecordAfterDelete(p.store.value, k, env.delete, k);
    }
  }

  lemma DiscardKeepsInv(lim: Limits, k: string, w: World, env: DestroyEnv, w': World)
    requires k != "" && Inv(w, k) && w.phase.Failed? && Good(w, k, FinishFail(env))
      && StepTo(lim, k, w, FinishFail(env), w')
    ensures Inv(w', k)
  {
    var entry := w.phase.entry;
    var op := if k in w.pool.live then DiscardOp(k, env) else LateDiscardOp(k, entry, env);
    assert Enabled(w.pool, op) && w'.pool == Apply(lim, w.pool, op);
    OpKeepsAgreement(lim, w.pool, op);
    QuietOpKeepsNames(lim, w.pool, op);
    assert k in w.pool.live ==> IdentityOf(w.pool, k).Some? && w.pool.live[k].sessionID == k;
    OneCall(w.up, CallDelete(k, env.upstreamDeletes));
    assert w'.up == AfterCall(w.up, CallDelete(k, env.upstreamDeletes));
    if DeleteFrom(w.pool.store, k, env.delete).Ok? {
      DroppedIdentity(w.pool, k, entry, env);
    }
  }

  /** No other operation leases k or gives it a session it did not have. */
  lemma OtherLeavesKey(lim: Limits, k: string, w: World, op: Op, after: Upstream)
    requires k != "" && Inv(w, k) && OtherAllowed(w, k, op, after)
    ensures var p' := Apply(lim, w.pool, op);
      && (k in p'.live ==> k in w.pool.live && p'.live[k].leased == w.pool.live[k].leased)
      && (IdentityOf(p', k).Some? ==> IdentityOf(w.pool, k).Some?)
  {
    if !op.AcquireOp? {
      QuietOpIdentity(lim, w.pool, op, k);
    } else if op.key != "" {
      AcquireIdentity(lim, w.pool, op.key, op.spec, op.acquire, k);
      AcquireLeavesOthers(lim, w.pool, op.key, op.spec, op.acquire, k);
    }
  }

  lemma AcquireLeavesOthers(lim: Limits, p: Pool, key: string, spec: Spec, env: AcquireEnv, k: string)
    requires k != key
    ensures var p' := Acquire(lim, p, key, spec, env).pool;
      k in p'.live ==> k in p.live && p'.live[k] == p.live[k]
  {
  }

  lemma OtherKeepsInv(lim: Limits, k: string, w: World, op: Op, after: Upstream)
    requires k != "" && Inv(w, k) && OtherAllowed(w, k, op, after)
    ensures Inv(w.(pool := Apply(lim, w.pool, op), up := after), k)
  {
    OpKeepsAgreement(lim, w.pool, op);
    if op.AcquireOp? {
      AcquireKeepsNames(lim, w.pool, op.key, op.spec, op.acquire, w.up);
    } else {
      QuietOpKeepsNames(lim, w.pool, op);
    }
    OtherLeavesKey(lim, k, w, op, after);
  }

  lemma StepKeepsInv(lim: Limits, k: string, w: World, s: Step, w': World)
    requires k != "" && Inv(w, k) && Allowed(w, k, s) && StepTo(lim, k, w, s, w') && Good(w, k, s)
    ensures Inv(w', k)
  {
    match s
    case Begin(spec, env) => BeginKeepsInv(lim, k, w, spec, env, w');
    case Abandon(now, save) => ReleaseKeepsInv(lim, k, w, w.phase.entry, now, save, w');
    case SendOk => SendCompletes(w, k);
    case SendFail(told) =>
    case FinishOk(now, save, reply, next) =>
      NextRound(w.transcript, reply, next);
      ReleaseKeepsInv(lim, k, w, w.phase.entry, now, save, w');
    case FinishFail(env) => DiscardKeepsInv(lim, k, w, env, w');
    case Other(op, after) => OtherKeepsInv(lim, k, w, op, after);
    case LoseSession(sid) =>
  }

  // ---------- Runs ----------

  ghost predicate Linked(lim: Limits, k: string, run: seq<World>, steps: seq<Step>, i: nat)
    requires i < |steps| && |run| == |steps| + 1
  {
    Allowed(run[i], k, steps[i]) && StepTo(lim, k, run[i], steps[i], run[i + 1])
  }

  /** A new conversation at key k: nothing is live and there is no record for k. */
  ghost predicate IsRun(lim: Limits, k: string, run: seq<World>, steps: seq<Step>) {
    && k != "" && |run| == |steps| + 1
    && run[0].pool.live == map[] && NamedByKey(run[0].pool) && IdentityOf(run[0].pool, k) == None
    && EndsWithUser(run[0].transcript) && run[0].phase == Idle
    && forall i: nat :: i < |steps| ==> Linked(lim, k, run, steps, i)
  }

  lemma {:induction false} RunKeepsInv(lim: Limits, k: string, run: seq<World>, steps: seq<Step>, i: nat)
    requires IsRun(lim, k, run, steps) && i < |run|
    requires forall j :: 0 <= j < i ==> Good(run[j], k, steps[j])
    ensures Inv(run[i], k)
    decreases i
  {
    if i > 0 {
      RunKeepsInv(lim, k, run, steps, i - 1);
      assert Linked(lim, k, run, steps, i - 1);
      StepKeepsInv(lim, k, run[i - 1], steps[i - 1], run[i]);
    }
  }

  /** After every success the session upstream has been told exactly the user turns of the transcript, once
      and in order; across reuse, expiry, failed sends, lost sessions and resumption after a restart. */
  lemma TranscriptComplete(lim: Limits, k: string, run: seq<World>, steps: seq<Step>, i: nat)
    requires IsRun(lim, k, run, steps) && i < |steps| && steps[i] == SendOk
    requires forall j :: 0 <= j < i ==> Good(run[j], k, steps[j])
    ensures k in run[i + 1].up && Seen(run[i + 1].up[k]) == UserTurns(run[i + 1].transcript)
  {
    RunKeepsInv(lim, k, run, steps, i);
    assert Linked(lim, k, run, steps, i);
    StepKeepsInv(lim, k, run[i], steps[i], run[i + 1]);
  }
}
