/** One request through the server: checks, lease, message, send, and giving everything back. */
module Requests {
  import opened Prelude
  import opened SessionSpec
  import FileStore
  import opened Prompt
  import opened SM = SessionModel
  import SR = SessionRuns
  import T = Transcript
  import opened SessionManager

  /** A conversation request after its settings have been resolved; the permission mode and the tool fingerprint
      among them are filled in by the server. The fingerprint is missing when a tool cannot be encoded. */
  datatype Request = Request(
    settings: Spec, requestedMode: string, hasTools: bool, fingerprint: Option<seq<string>>, turns: seq<Turn>)

  /** What the world answers during a request. Attachments are written to that many temporary files, or fail. The
      request is answered if its send succeeds and, when it is streamed, the stream reports success. */
  datatype RequestEnv = RequestEnv(
    featuresOk: bool, providerOk: bool, acquire: AcquireEnv, images: Option<nat>, extras: Option<nat>, imagesOk: bool,
    answered: bool, endedAt: int, save: FileStore.Io, destroy: DestroyEnv, closeError: Option<AcquireError>)

  datatype RequestError =
    | BadPermission(mode: PermissionError) | InteractiveRequiresSessionKey | UnsupportedFeature | BadProvider | BadTool
    | NotAcquired(reason: AcquireError) | BadPrompt(prompt: PromptError) | BadAttachment | SendFailed

  /** The settings the session must have, if the request passes the checks made before any lease is taken. */
  function SpecFor(configured: string, key: string, req: Request, env: RequestEnv): (r: Result<Spec, RequestError>)
    ensures r.Ok? ==> PermissionModeRank(r.value.permissionMode) <= PermissionModeRank(ServerMode(configured))
    ensures r.Ok? && key == "" ==> !req.settings.interactive && !req.hasTools && r.value.permissionMode != BRIDGE
    ensures r.Ok? ==> Some(r.value.toolsFingerprint) == req.fingerprint
  {
    var mode := EffectivePermissionMode(req.requestedMode, configured);
    if mode.Err? then Err(BadPermission(mode.error))
    else if key == "" && (req.settings.interactive || req.hasTools || mode.value == BRIDGE)
      then Err(InteractiveRequiresSessionKey)
    else if !env.featuresOk then Err(UnsupportedFeature)
    else if !env.providerOk then Err(BadProvider)
    else if req.fingerprint == None then Err(BadTool)
    else Ok(req.settings.(permissionMode := mode.value, toolsFingerprint := req.fingerprint.value))
  }

  /** What can still go wrong once the lease is there. */
  function MessageFor(grant: Grant, req: Request, env: RequestEnv): Result<T.Message, RequestError> {
    var message := T.SelectMessage(grant, req.turns);
    if message.Err? then Err(BadPrompt(message.error))
    else if env.images == None || env.extras == None || !env.imagesOk then Err(BadAttachment)
    else Ok(message.value)
  }

  datatype Ready = Ready(grant: Grant, message: T.Message)

  function GivenBack(p: Pool, key: string, grant: Grant, env: RequestEnv): Pool {
    if grant.persistent && key in p.live then Release(p, key, env.endedAt, env.save) else p
  }

  function Dropped(p: Pool, key: string, grant: Grant, env: RequestEnv): Pool {
    if grant.persistent && key in p.live then Discard(p, key, env.destroy).0 else p
  }

  function Prepare(lim: Limits, p: Pool, configured: string, key: string, req: Request, env: RequestEnv)
      : (Pool, Result<Ready, RequestError>)
  {
    var spec := SpecFor(configured, key, req, env);
    if spec.Err? then (p, Err(spec.error))
    else
      var r := Acquire(lim, p, key, spec.value, env.acquire);
      if r.result.Err? then (r.pool, Err(NotAcquired(r.result.error)))
      else
        var message := MessageFor(r.result.value, req, env);
        if message.Err? then (GivenBack(r.pool, key, r.result.value, env), Err(message.error))
        else (r.pool, Ok(Ready(r.result.value, message.value)))
  }

  /** A request whose send fails loses its session; any other gives it back. */
  function Ended(p: Pool, key: string, grant: Grant, env: RequestEnv): (Pool, Option<RequestError>) {
    if env.answered then (GivenBack(p, key, grant, env), None) else (Dropped(p, key, grant, env), Some(SendFailed))
  }

  function Handle(lim: Limits, p: Pool, configured: string, key: string, req: Request, env: RequestEnv)
      : (Pool, Option<RequestError>)
  {
    var (p', ready) := Prepare(lim, p, configured, key, req, env);
    if ready.Err? then (p', Some(ready.error))
    else Ended(p', key, ready.value.grant, env)
  }

  // ---------- No lock is left behind ----------

  lemma AcquireLeases(lim: Limits, p: Pool, key: string, spec: Spec, env: AcquireEnv, k: string)
    ensures var r := Acquire(lim, p, key, spec, env);
      && (r.result.Err? ==> (T.Leased(r.pool, k) <==> T.Leased(p, k)))
      && (r.result.Ok? ==> (r.result.value.persistent <==> key != ""))
      && (r.result.Ok? && key == "" ==> r.pool == p)
      && (r.result.Ok? && key != "" ==> !T.Leased(p, key) && (T.Leased(r.pool, k) <==> T.Leased(p, k) || k == key))
  {
    if key != "" && key !in p.live {
      SR.MissingLease(lim, p, key, spec, env);
    }
  }

  /** A prepared request holds the lease of its key and nothing else; a refused one holds nothing. */
  lemma PrepareLeases(lim: Limits, p: Pool, configured: string, key: string, req: Request, env: RequestEnv, k: string)
    ensures var (p', ready) := Prepare(lim, p, configured, key, req, env);
      && (ready.Err? ==> (T.Leased(p', k) <==> T.Leased(p, k)))
      && (ready.Ok? && key != "" ==>
           ready.value.grant.persistent && !T.Leased(p, key) && (T.Leased(p', k) <==> T.Leased(p, k) || k == key))
      && (ready.Ok? && key == "" ==> p' == p && !ready.value.grant.persistent)
  {
    var spec := SpecFor(configured, key, req, env);
    if spec.Ok? {
      AcquireLeases(lim, p, key, spec.value, env.acquire, k);
    }
  }

  /** Whatever happens during a request, afterwards exactly those sessions are leased that were before. */
  lemma RequestLeavesNoLock(lim: Limits, p: Pool, configured: string, key: string, req: Request, env: RequestEnv,
      k: string)
    ensures T.Leased(Handle(lim, p, configured, key, req, env).0, k) <==> T.Leased(p, k)
  {
    PrepareLeases(lim, p, configured, key, req, env, k);
    var (p', ready) := Prepare(lim, p, configured, key, req, env);
    if ready.Ok? {
      PrepareLeases(lim, p, configured, key, req, env, key);
      EndLeases(p', key, ready.value.grant, env, k);
    }
  }

  lemma EndLeases(p: Pool, key: string, grant: Grant, env: RequestEnv, k: string)
    requires grant.persistent ==> key in p.live
    ensures T.Leased(GivenBack(p, key, grant, env), k) <==> T.Leased(p, k) && (grant.persistent ==> k != key)
    ensures T.Leased(Dropped(p, key, grant, env), k) <==> T.Leased(p, k) && (grant.persistent ==> k != key)
  {
  }

  /** An answered request leaves its session live, free and freshly used; after a failed send it is gone, and its
      record too unless the disk refuses. */
  lemma RequestOutcome(lim: Limits, p: Pool, configured: string, key: string, req: Request, env: RequestEnv)
    requires key != ""
    ensures var (p', error) := Handle(lim, p, configured, key, req, env);
      && (error == None ==> key in p'.live && !p'.live[key].leased && p'.live[key].lastUsed == env.endedAt)
      && (error == Some(SendFailed) ==> key !in p'.live)
      && (error == Some(SendFailed)
           && DeleteFrom(Prepare(lim, p, configured, key, req, env).0.store, key, env.destroy.delete).Ok? ==>
             SR.IdentityOf(p', key) == None)
  {
    PrepareLeases(lim, p, configured, key, req, env, key);
    var (prepared, ready) := Prepare(lim, p, configured, key, req, env);
    if ready.Ok? && !env.answered {
      DroppedIsForgotten(prepared, key, env);
    }
  }

  lemma DroppedIsForgotten(p: Pool, key: string, env: RequestEnv)
    requires key in p.live
    ensures DeleteFrom(p.store, key, env.destroy.delete).Ok? ==>
      SR.IdentityOf(Discard(p, key, env.destroy).0, key) == None
  {
    if p.store.Some? && DeleteFrom(p.store, key, env.destroy.delete).Ok? {
      SR.RecordAfterDelete(p.store.value, key, env.destroy.delete, key);
    }
  }

  /** A request that is answered was sent everything if its session is new, and only its last turn otherwise. */
  lemma PreparedMessage(lim: Limits, p: Pool, configured: string, key: string, req: Request, env: RequestEnv)
    requires Prepare(lim, p, configured, key, req, env).1.Ok?
    ensures var ready := Prepare(lim, p, configured, key, req, env).1.value;
      && req.turns != [] && IsUser(req.turns[|req.turns| - 1])
      && (ready.message == T.Whole(req.turns) || ready.message == T.Latest(req.turns[|req.turns| - 1].content))
      && (ready.message.Latest? <==> key != "" && !ready.grant.created)
  {
    var spec := SpecFor(configured, key, req, env).value;
    AcquireLeases(lim, p, key, spec, env.acquire, key);
  }

  // ---------- The server ----------

  class Server {
    const manager: Manager
    const configured: string
    /** Temporary attachment files on disk. */
    var files: nat

    constructor (manager: Manager, configured: string)
      ensures this.manager == manager && this.configured == configured && files == 0
    {
      this.manager, this.configured, files := manager, configured, 0;
    }

    /** Attachments are written out in two goes; if anything fails, all files made so far are removed. */
    method Materialize(env: RequestEnv) returns (ok: bool, made: nat)
      modifies this`files
      ensures ok <==> env.images.Some? && env.extras.Some? && env.imagesOk
      ensures ok ==> made == env.images.value + env.extras.value && files == old(files) + made
      ensures !ok ==> made == 0 && files == old(files)
    {
      made := 0;
      if env.images == None {
        return false, 0;
      }
      files := files + env.images.value;
      if env.extras == None {
        files := files - env.images.value;
        return false, 0;
      }
      files := files + env.extras.value;
      made := env.images.value + env.extras.value;
      if !env.imagesOk {
        files := files - made;
        return false, 0;
      }
      ok := true;
    }

    /** What holds of a lease on key that has just been granted. */
    ghost predicate Granted(lease: Lease, key: string)
      reads manager, lease, if lease.entry == null then {} else {lease.entry}
    {
      && manager.Valid() && lease.manager == manager && lease.Outstanding()
      && (lease.entry == null <==> key == "")
      && (lease.entry != null ==> key in manager.sessions && manager.sessions[key] == lease.entry)
    }

    method GiveBack(lease: Lease, key: string, env: RequestEnv)
      requires Granted(lease, key)
      modifies lease, if lease.entry == null then {} else {lease.entry}, manager.Disk()
      ensures manager.Valid() && lease.done && (lease.entry != null ==> !lease.entry.locked)
      ensures manager.Pool() == GivenBack(old(manager.Pool()), key, lease.Grant(), env)
    {
      var error := lease.Release(env.endedAt, env.save, env.closeError);
    }

    method Drop(lease: Lease, key: string, env: RequestEnv)
      requires Granted(lease, key)
      modifies lease, manager`sessions, if lease.entry == null then {} else {lease.entry}, manager.Disk()
      ensures manager.Valid() && lease.done && (lease.entry != null ==> !lease.entry.locked)
      ensures manager.Pool() == Dropped(old(manager.Pool()), key, lease.Grant(), env)
    {
      var error, calls := lease.Discard(env.destroy, env.closeError);
    }

    /** What is done at the end of a request: the temporary files go, and so does the lease. */
    method End(lease: Lease, key: string, env: RequestEnv, made: nat) returns (error: Option<RequestError>)
      requires Granted(lease, key) && made <= files
      modifies this`files, lease, manager`sessions, if lease.entry == null then {} else {lease.entry}, manager.Disk()
      ensures manager.Valid() && lease.done && (lease.entry != null ==> !lease.entry.locked)
      ensures (manager.Pool(), error) == Ended(old(manager.Pool()), key, lease.Grant(), env)
      ensures files == old(files) - made
    {
      files := files - made;
      if env.answered {
        GiveBack(lease, key, env);
        error := None;
      } else {
        Drop(lease, key, env);
        error := Some(SendFailed);
      }
    }

    /** The text to send: all turns to a new session, the last one to a session that goes on. */
    method SelectPrompt(lease: Lease, turns: seq<Turn>) returns (prompt: Result<string, PromptError>)
      ensures prompt.Ok? <==> T.SelectMessage(lease.Grant(), turns).Ok?
      ensures prompt.Ok? ==> prompt.value == T.Text(T.SelectMessage(lease.Grant(), turns).value)
      ensures prompt.Err? ==> prompt.error == T.SelectMessage(lease.Grant(), turns).error
    {
      if lease.entry != null && !lease.created {
        prompt := LatestUserPrompt(turns);
      } else {
        var whole := BuildPrompt(turns);
        prompt := Ok(whole);
      }
      if prompt.Ok? {
        var last := LatestUserTurn(turns);
        if last.Err? {
          prompt := Err(last.error);
        }
      }
    }

    /** From the request to a lease and a prompt. On every error the pool is as the model says, the temporary
        files are gone, and the lease that was taken on the way, if any, is finalised. */
    method PrepareConversation(key: string, req: Request, env: RequestEnv)
      returns (error: Option<RequestError>, lease: Lease?, prompt: string, made: nat, ghost held: Lease?)
      requires manager.Valid()
      modifies this`files, manager`sessions, manager.EntryAt(key), manager.Disk()
      ensures manager.Valid() && files == old(files) + made
      ensures error.Some? ==>
        && made == 0
        && Prepare(manager.limits, old(manager.Pool()), configured, key, req, env)
             == (manager.Pool(), Err(error.value))
      ensures error.Some? && held != null ==> held.done && (held.entry != null ==> !held.entry.locked)
      ensures error == None ==> lease != null && fresh(lease) && lease == held && Granted(lease, key)
      ensures error == None && lease.entry != null ==> fresh(lease.entry) || lease.entry in old(manager.EntryAt(key))
      ensures error == None ==>
        IsReady(Prepare(manager.limits, old(manager.Pool()), configured, key, req, env), lease, prompt)
    {
      lease, prompt, made, held := null, "", 0, null;
      ghost var p := manager.Pool();
      var spec := SpecFor(configured, key, req, env);
      if spec.Err? {
        return Some(spec.error), null, "", 0, null;
      }
      var refused, calls;
      ghost var entry;
      lease, refused, calls, entry := manager.Acquire(key, spec.value, env.acquire);
      if refused.Some? {
        return Some(NotAcquired(refused.value)), null, "", 0, null;
      }
      held := lease;
      error, prompt, made := FinishPreparing(lease, key, req, env);
    }

    /** The pool and the answer of the model, with the lease and the text in place of the grant and the message. */
    ghost predicate IsReady(r: (Pool, Result<Ready, RequestError>), lease: Lease, prompt: string)
      reads manager, manager.sessions.Values, manager.Disk()
    {
      && r.0 == manager.Pool() && r.1.Ok?
      && r.1.value.grant == lease.Grant() && prompt == T.Text(r.1.value.message)
    }

    /** The first half of the rest: the text, or the lease is given back. */
    method SelectOrGiveBack(lease: Lease, key: string, turns: seq<Turn>, env: RequestEnv)
      returns (prompt: Result<string, PromptError>)
      requires Granted(lease, key)
      modifies lease, if lease.entry == null then {} else {lease.entry}, manager.Disk()
      ensures manager.Valid()
      ensures var message := T.SelectMessage(lease.Grant(), turns);
        if message.Err? then prompt == Err(message.error) else prompt == Ok(T.Text(message.value))
      ensures prompt.Err? ==>
        && manager.Pool() == GivenBack(old(manager.Pool()), key, lease.Grant(), env)
        && lease.done && (lease.entry != null ==> !lease.entry.locked)
      ensures prompt.Ok? ==> manager.Pool() == old(manager.Pool()) && Granted(lease, key)
    {
      prompt := SelectPrompt(lease, turns);
      if prompt.Err? {
        GiveBack(lease, key, env);
      }
    }

    /** The second half: the attachments, or the lease is given back. */
    method AttachOrGiveBack(lease: Lease, key: string, env: RequestEnv) returns (ok: bool, made: nat)
      requires Granted(lease, key)
      modifies this`files, lease, if lease.entry == null then {} else {lease.entry}, manager.Disk()
      ensures manager.Valid() && files == old(files) + made
      ensures ok <==> env.images.Some? && env.extras.Some? && env.imagesOk
      ensures !ok ==>
        && made == 0 && manager.Pool() == GivenBack(old(manager.Pool()), key, lease.Grant(), env)
        && lease.done && (lease.entry != null ==> !lease.entry.locked)
      ensures ok ==> manager.Pool() == old(manager.Pool()) && Granted(lease, key)
    {
      ok, made := Materialize(env);
      if !ok {
        GiveBack(lease, key, env);
      }
    }

    method FinishPreparing(lease: Lease, key: string, req: Request, env: RequestEnv)
      returns (error: Option<RequestError>, prompt: string, made: nat)
      requires Granted(lease, key)
      modifies this`files, lease, if lease.entry == null then {} else {lease.entry}, manager.Disk()
      ensures manager.Valid() && files == old(files) + made
      ensures error.Some? ==>
        && made == 0 && MessageFor(lease.Grant(), req, env) == Err(error.value)
        && manager.Pool() == GivenBack(old(manager.Pool()), key, lease.Grant(), env)
        && lease.done && (lease.entry != null ==> !lease.entry.locked)
      ensures error == None ==>
        && MessageFor(lease.Grant(), req, env).Ok? && prompt == T.Text(MessageFor(lease.Grant(), req, env).value)
        && manager.Pool() == old(manager.Pool()) && Granted(lease, key)
    {
      error, prompt, made := None, "", 0;
      var selected := SelectOrGiveBack(lease, key, req.turns, env);
      if selected.Err? {
        error := Some(BadPrompt(selected.error));
        return;
      }
      var ok;
      ok, made := AttachOrGiveBack(lease, key, env);
      if !ok {
        error := Some(BadAttachment);
        return;
      }
      prompt := selected.value;
    }

    /** A whole request: however it ends, the temporary files are gone and the lease is finalised. */
    method HandleConversation(key: string, req: Request, env: RequestEnv)
      returns (error: Option<RequestError>, ghost held: Lease?)
      requires manager.Valid()
      modifies this`files, manager`sessions, manager.EntryAt(key), manager.Disk()
      ensures manager.Valid() && files == old(files)
      ensures (manager.Pool(), error) == Handle(manager.limits, old(manager.Pool()), configured, key, req, env)
      ensures held != null ==> held.done && (held.entry != null ==> !held.entry.locked)
    {
      var lease, prompt, made;
      error, lease, prompt, made, held := PrepareConversation(key, req, env);
      if error.Some? {
        return;
      }
      // The prompt is sent; whether an answer arrives is up to the runtime.
      error := End(lease, key, env, made);
    }
  }
}
