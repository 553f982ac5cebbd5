/** What a request comes to, told in terms of what it asks for and of the session at its key. */
module RequestEffects {
  import opened Prelude
  import opened SessionSpec
  import FileStore
  import opened Prompt
  import opened SM = SessionModel
  import opened SE = SessionEffects
  import opened Requests
  import ToolFingerprint

  // ---------- The settings ----------

  /** The mode the request names, or the server's if it names none; a server that is not told otherwise denies. */
  function ModeFor(req: Request, configured: string): string {
    var named := ToLower(TrimSpace(req.requestedMode));
    if named != "" && named != "inherit" then named
    else if configured == "" || configured == "inherit" then "deny" else configured
  }

  /** The settings are those of the request, field by field, with the mode it gets and the fingerprint of its tools. */
  predicate AsAsked(s: Spec, configured: string, req: Request) {
    && s.model == req.settings.model
    && s.systemPrompt == req.settings.systemPrompt
    && s.systemPromptMode == req.settings.systemPromptMode
    && s.reasoningEffort == req.settings.reasoningEffort
    && s.agent == req.settings.agent
    && s.interactive == req.settings.interactive
    && s.providerFingerprint == req.settings.providerFingerprint
    && s.providerSecretFingerprint == req.settings.providerSecretFingerprint
    && s.permissionMode == ModeFor(req, configured)
    && Some(s.toolsFingerprint) == req.fingerprint
  }

  /** A session that outlives its request is needed, to continue it. */
  predicate NeedsKey(configured: string, req: Request) {
    req.settings.interactive || req.hasTools || ModeFor(req, configured) == "bridge"
  }

  function FirstFault(mode: Result<string, PermissionError>, lacksKey: bool, env: RequestEnv): RequestError {
    if mode.Err? then BadPermission(mode.error)
    else if lacksKey then InteractiveRequiresSessionKey
    else if !env.featuresOk then UnsupportedFeature
    else if !env.providerOk then BadProvider
    else BadTool
  }

  /** Before any lease is taken, a request is refused for its mode, then for a missing key, for a feature, for its
      provider and for a tool that cannot be encoded, in this order; otherwise its settings are as it asked. */
  lemma CheckedIff(configured: string, key: string, req: Request, env: RequestEnv)
    ensures var r := SpecFor(configured, key, req, env);
      var mode := EffectivePermissionMode(req.requestedMode, configured);
      && (r.Ok? ==> AsAsked(r.value, configured, req))
      && (r.Ok? <==>
            && mode.Ok? && (key != "" || !NeedsKey(configured, req))
            && env.featuresOk && env.providerOk && req.fingerprint.Some?)
      && (r.Err? ==> r.error == FirstFault(mode, key == "" && NeedsKey(configured, req), env))
  {
    NamedModes(req.requestedMode, configured);
  }

  predicate Passes(configured: string, key: string, req: Request, env: RequestEnv) {
    SpecFor(configured, key, req, env).Ok?
  }

  lemma SameSettings(a: Spec, b: Spec, configured: string, req: Request)
    requires AsAsked(a, configured, req)
    ensures AsAsked(b, configured, req) <==> b == a
  {
  }

  /** A request that does not pass the checks is told of the first one that failed, and changes nothing. */
  lemma RefusedFirst(lim: Limits, p: Pool, configured: string, key: string, req: Request, env: RequestEnv)
    requires !Passes(configured, key, req, env)
    ensures var mode := EffectivePermissionMode(req.requestedMode, configured);
      var fault := FirstFault(mode, key == "" && NeedsKey(configured, req), env);
      && Prepare(lim, p, configured, key, req, env) == (p, Err(fault))
      && Handle(lim, p, configured, key, req, env) == (p, Some(fault))
  {
    CheckedIff(configured, key, req, env);
  }

  // ---------- The message ----------

  /** The conversation ends with the user, and the attachments can be written out. */
  predicate Deliverable(req: Request, env: RequestEnv) {
    EndsWithUser(req) && env.images.Some? && env.extras.Some? && env.imagesOk
  }

  predicate EndsWithUser(req: Request) {
    req.turns != [] && IsUser(req.turns[|req.turns| - 1])
  }

  lemma MessageIff(grant: Grant, req: Request, env: RequestEnv)
    ensures var message := MessageFor(grant, req, env);
      if !EndsWithUser(req) then message == Err(BadPrompt(if req.turns == [] then NoTurns else FinalTurnNotUser))
      else if !Deliverable(req, env) then message == Err(BadAttachment)
      else message.Ok?
  {
  }

  /** Once it has its session, a request only fails for a conversation that does not end with the user, or for its
      attachments. */
  lemma ReadyIff(lim: Limits, p: Pool, configured: string, key: string, req: Request, env: RequestEnv)
    requires Passes(configured, key, req, env)
    ensures var r := Acquire(lim, p, key, SpecFor(configured, key, req, env).value, env.acquire).result;
      var ready := Prepare(lim, p, configured, key, req, env).1;
      && (ready.Ok? <==> r.Ok? && Deliverable(req, env))
      && (r.Err? ==> ready == Err(NotAcquired(r.error)))
      && (r.Ok? && !EndsWithUser(req) ==>
            ready == Err(BadPrompt(if req.turns == [] then NoTurns else FinalTurnNotUser)))
      && (r.Ok? && EndsWithUser(req) && ready.Err? ==> ready == Err(BadAttachment))
      && (ready.Ok? ==> Ok(ready.value.grant) == r)
  {
    var r := Acquire(lim, p, key, SpecFor(configured, key, req, env).value, env.acquire).result;
    if r.Ok? {
      MessageIff(r.value, req, env);
    }
  }

  // ---------- The session at the key ----------

  /** A request that passes the checks, at the key of a live session: it is refused as a conflict exactly if the
      session's settings are not what the request asks for, whoever holds the session, and then nothing changes; if they
      are, and the session is free, it goes on with that very session. */
  lemma LiveConflictIff(lim: Limits, p: Pool, configured: string, key: string, req: Request, env: RequestEnv)
    requires key != "" && key in p.live && Passes(configured, key, req, env)
    ensures var (p', error) := Handle(lim, p, configured, key, req, env);
      && (error == Some(NotAcquired(SpecMismatch)) <==> !AsAsked(p.live[key].spec, configured, req))
      && (error == Some(NotAcquired(SpecMismatch)) ==> p' == p)
    ensures var ready := Prepare(lim, p, configured, key, req, env).1;
      && (AsAsked(p.live[key].spec, configured, req) && !p.live[key].leased && !env.acquire.ctxEnded ==>
            && (ready.Ok? <==> Deliverable(req, env))
            && (ready.Ok? ==> ready.value.grant == Grant(p.live[key].sessionID, true, false)))
  {
    ReadyIff(lim, p, configured, key, req, env);
    var spec := SpecFor(configured, key, req, env).value;
    CheckedIff(configured, key, req, env);
    SameSettings(spec, p.live[key].spec, configured, req);
    AtLiveKey(lim, p, key, spec, env.acquire);
  }

  /** The session differs from what the request asks for in nothing but, possibly, its tools. */
  predicate OnlyToolsDiffer(s: Spec, configured: string, req: Request) {
    req.fingerprint.Some? && AsAsked(s.(toolsFingerprint := req.fingerprint.value), configured, req)
  }

  /** Between lists of tools that differ in more than their order there is a conflict, and between others there is
      none. */
  lemma ToolsConflictIff<T(!new)>(encode: T -> Option<string>, had: seq<T>, asked: seq<T>, lim: Limits, p: Pool,
      configured: string, key: string, req: Request, env: RequestEnv)
    requires ToolFingerprint.Injective(encode)
    requires ToolFingerprint.Encodes(encode, had) && ToolFingerprint.Encodes(encode, asked)
    requires key != "" && key in p.live && Passes(configured, key, req, env)
    requires OnlyToolsDiffer(p.live[key].spec, configured, req)
    requires p.live[key].spec.toolsFingerprint == ToolFingerprint.Fingerprint(encode, had)
    requires req.fingerprint == Some(ToolFingerprint.Fingerprint(encode, asked))
    ensures Handle(lim, p, configured, key, req, env).1 == Some(NotAcquired(SpecMismatch)) <==>
      multiset(asked) != multiset(had)
  {
    LiveConflictIff(lim, p, configured, key, req, env);
    ToolFingerprint.FingerprintIff(encode, had, asked);
  }

  /** The recorded settings are what the request asks for, the credentials apart, which no record holds. */
  predicate RecordedAsAsked(s: Spec, configured: string, req: Request) {
    AsAsked(s.(providerSecretFingerprint := req.settings.providerSecretFingerprint), configured, req)
  }

  lemma SameButSecret(a: Spec, b: Spec, configured: string, req: Request)
    requires AsAsked(a, configured, req)
    ensures RecordedAsAsked(b, configured, req) <==> AgreesExceptSecret(b, a)
  {
  }

  /** The same for a session that is only on disk: the request is refused as a conflict exactly if the recorded settings
      are not what it asks for, and could be deleted together with their session. Then they are, and the same request
      gets a new session when it comes again, unless disk or runtime fail it. */
  lemma StoredConflictIff(lim: Limits, p: Pool, configured: string, key: string, req: Request, env: RequestEnv,
      again: RequestEnv)
    requires Passes(configured, key, req, env) && Passes(configured, key, req, again)
    requires Vacant(lim, p, key, env.acquire.load) && key in RecordsOf(p)
    requires again.acquire.load.readOk && SaveFault(p, again.acquire.save) == None && again.acquire.create.Created?
    ensures var (p', error) := Handle(lim, p, configured, key, req, env);
      && (error == Some(NotAcquired(SpecMismatch)) <==>
            && !RecordedAsAsked(RecordsOf(p)[key].spec, configured, req)
            && DeleteFault(p, key, env.acquire.delete) == None && env.acquire.upstreamDeletes)
      && (error == Some(NotAcquired(SpecMismatch)) ==>
            && p'.live == p.live && RecordsOf(p') == RecordsOf(p) - {key}
            && var ready := Prepare(lim, p', configured, key, req, again).1;
               && (ready.Ok? <==> Deliverable(req, again))
               && (ready.Ok? ==> ready.value.grant == Grant(again.acquire.create.sessionID, true, true)))
  {
    var spec := SpecFor(configured, key, req, env).value;
    CheckedIff(configured, key, req, env);
    CheckedIff(configured, key, req, again);
    SameSettings(spec, SpecFor(configured, key, req, again).value, configured, req);
    SameButSecret(spec, RecordsOf(p)[key].spec, configured, req);
    MismatchIsOfSettings(lim, p, key, spec, env.acquire);
    if Acquire(lim, p, key, spec, env.acquire).result == Err(SpecMismatch) {
      WithOtherSettings(lim, p, key, spec, env.acquire);
      RefusedThenGranted(lim, p, key, spec, env.acquire, again.acquire);
      ReadyIff(lim, Acquire(lim, p, key, spec, env.acquire).pool, configured, key, req, again);
    }
  }
}
